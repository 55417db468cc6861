/** Every scheduler primitive moves one task and keeps each task where its status says. */
module SchedProofs {
  import opened Sequences
  import opened Deadlines
  import opened KernelState
  import opened Sched

  /** `k'` differs from `k` at task `t` only, as far as tasks and their places go. */
  ghost predicate OthersSame(k: Kernel, k': Kernel, t: Tid) {
    && k'.cfg == k.cfg && |k'.tcbs| == |k.tcbs| && k'.run == k.run && k'.now == k.now
    && (forall x :: 0 <= x < |k.tcbs| && x != t ==> k'.tcbs[x] == k.tcbs[x])
    && (forall l, x: Tid :: x != t ==> (On(k', l, x) <==> On(k, l, x)))
    && (forall x: Tid :: x != t ==> (Timed(k', x) <==> Timed(k, x)))
  }

  lemma OthersSameTrans(k: Kernel, k1: Kernel, k2: Kernel, t: Tid)
    requires OthersSame(k, k1, t) && OthersSame(k1, k2, t)
    ensures OthersSame(k, k2, t)
  {
  }

  lemma StillOK(k: Kernel, k': Kernel, x: Tid)
    requires Shape(k) && Shape(k') && k'.cfg == k.cfg && x < k.cfg.tasks && TaskOK(k, x)
    requires k'.tcbs[x] == k.tcbs[x] && k.now <= k'.now && (x == k.run <==> x == k'.run)
    requires forall l :: On(k', l, x) <==> On(k, l, x)
    requires Timed(k', x) <==> Timed(k, x)
    ensures TaskOK(k', x)
  {
    assert Placed(k', x);
  }

  /** `SchedOK` except for what it says about `t`. */
  ghost predicate SchedOKBut(k: Kernel, t: Tid) {
    && Shape(k)
    && ListsOK(k)
    && (forall x :: 0 <= x < k.cfg.tasks && x != t ==> TaskOK(k, x))
    && k.tcbs[k.cfg.tasks].start <= k.now
  }

  lemma OneTaskStep(k: Kernel, k': Kernel, t: Tid)
    requires SchedOKBut(k, t) && OthersSame(k, k', t) && ListsOK(k')
    requires t < k.cfg.tasks && TaskOK(k', t)
    ensures SchedOK(k')
  {
    forall x | 0 <= x < k'.cfg.tasks ensures TaskOK(k', x) {
      if x != t {
        StillOK(k, k', x);
      }
    }
  }

  ghost predicate OnNone(k: Kernel, t: Tid) {
    forall l :: !On(k, l, t)
  }

  lemma TimersUnmoved(k: Kernel, k': Kernel)
    requires k'.timers == k.timers
    ensures forall x: Tid :: Timed(k', x) <==> Timed(k, x)
  {
  }

  lemma UnlinkEffect(k: Kernel, t: Tid)
    requires Shape(k) && ListsOK(k)
    ensures var k' := k.(lists := Unlink(k.lists, t));
            OthersSame(k, k', t) && ListsOK(k') && OnNone(k', t)
            && (forall x: Tid :: Timed(k', x) <==> Timed(k, x))
  {
    var k' := k.(lists := Unlink(k.lists, t));
    forall l ensures NoDup(At(k'.lists, l)) {
      DropNoDup(At(k.lists, l), t);
    }
    forall l, x: Tid ensures On(k', l, x) <==> On(k, l, x) && x != t {
      assert x in Drop(At(k.lists, l), t) <==> x in At(k.lists, l) && x != t;
    }
    TimersUnmoved(k, k');
  }

  lemma PushEffect(k: Kernel, l: ListId, t: Tid, front: bool)
    requires Shape(k) && ListsOK(k) && OnNone(k, t) && t < k.cfg.tasks
    ensures var k' := k.(lists := if front then PushFront(k.lists, l, t) else PushBack(k.lists, l, t));
            OthersSame(k, k', t) && ListsOK(k')
            && (forall m :: On(k', m, t) <==> m == l)
            && (forall x: Tid :: Timed(k', x) <==> Timed(k, x))
  {
    var k' := k.(lists := if front then PushFront(k.lists, l, t) else PushBack(k.lists, l, t));
    assert !On(k, l, t);
    forall m ensures NoDup(At(k'.lists, m)) {
      if m != l {
        assert At(k'.lists, m) == At(k.lists, m);
      }
    }
    forall m, x: Tid ensures On(k', m, x) <==> On(k, m, x) || (m == l && x == t) {
    }
    TimersUnmoved(k, k');
  }

  lemma UntimeEffect(k: Kernel, t: Tid)
    requires Shape(k) && ListsOK(k)
    ensures var k' := k.(timers := Remove(k.timers, t));
            OthersSame(k, k', t) && ListsOK(k') && !Timed(k', t)
            && (forall l, x: Tid :: On(k', l, x) <==> On(k, l, x))
  {
    RemoveKeeps(k.timers, t);
    forall x: Tid ensures Linked(Remove(k.timers, t), x) <==> Linked(k.timers, x) && x != t {
      RemoveLinks(k.timers, t, x);
    }
  }

  lemma TimeEffect(k: Kernel, t: Tid, time: nat)
    requires Shape(k) && ListsOK(k) && !Timed(k, t) && t < k.cfg.tasks
    ensures var k' := k.(timers := Insert(k.timers, Entry(t, time)));
            OthersSame(k, k', t) && ListsOK(k') && Timed(k', t)
            && (forall l, x: Tid :: On(k', l, x) <==> On(k, l, x))
  {
    var e := Entry(t, time);
    InsertKeeps(k.timers, e);
    forall x: Tid ensures Linked(Insert(k.timers, e), x) <==> Linked(k.timers, x) || x == t {
      InsertLinks(k.timers, e, x);
    }
  }

  lemma SetTcbEffect(k: Kernel, t: Tid, c: Tcb)
    requires Shape(k) && ListsOK(k) && t < |k.tcbs|
    ensures var k' := SetTcb(k, t, c);
            OthersSame(k, k', t) && ListsOK(k') && k'.tcbs[t] == c
            && (forall l, x: Tid :: On(k', l, x) <==> On(k, l, x))
            && (forall x: Tid :: Timed(k', x) <==> Timed(k, x))
  {
    var k' := SetTcb(k, t, c);
    assert k'.lists == k.lists && k'.timers == k.timers;
    forall l, x: Tid ensures On(k', l, x) <==> On(k, l, x) {
    }
    forall x: Tid ensures Timed(k', x) <==> Timed(k, x) {
    }
  }

  // ---- The primitives ----

  lemma EnQueueEffect(k: Kernel, t: Tid)
    requires Shape(k) && ListsOK(k) && OnNone(k, t) && t < k.cfg.tasks
    ensures var k' := EnQueue(k, t);
            OthersSame(k, k', t) && ListsOK(k')
            && (forall l :: On(k', l, t) <==> t != k.cfg.idle && l == ReadyList(k.tcbs[t].prio))
            && (Timed(k', t) <==> Timed(k, t))
            && (t != k.cfg.idle ==> k'.tcbs[t].slice > k.cfg.sliceMin)
  {
    var k' := EnQueue(k, t);
    var k1 := SetTcb(k, t, k'.tcbs[t]);
    SetTcbEffect(k, t, k'.tcbs[t]);
    if t != k.cfg.idle {
      PushEffect(k1, ReadyList(k.tcbs[t].prio), t, k.tcbs[t].slice > k.cfg.sliceMin);
    } else {
      assert k' == k1;
    }
  }

  lemma DeQueueEffect(k: Kernel, t: Tid)
    requires Shape(k) && ListsOK(k) && t < k.cfg.tasks && Placed(k, t)
    requires k.tcbs[t].st.ready ==> FlagsOK(k.tcbs[t], t == k.cfg.idle)
    ensures var k' := DeQueue(k, t);
            OthersSame(k, k', t) && ListsOK(k')
            && k'.tcbs[t] == k.tcbs[t].(st := k.tcbs[t].st.(ready := false))
            && (k.tcbs[t].st.ready ==> OnNone(k', t))
            && (Timed(k', t) <==> Timed(k, t))
  {
    var k' := DeQueue(k, t);
    if k.tcbs[t].st.ready {
      var k1 := SetTcb(k, t, k'.tcbs[t]);
      SetTcbEffect(k, t, k'.tcbs[t]);
      if t != k.cfg.idle {
        UnlinkEffect(k1, t);
      } else {
        forall l ensures !On(k', l, t) {
          assert On(k, l, t) ==> Home(l, k.tcbs[t], true);
        }
      }
    }
  }

  /** Wait lists and kernel objects are untouched, and so is every task's pending call. */
  ghost predicate Quiet(k: Kernel, k': Kernel) {
    && Same(k, k')
    && (forall l: ListId :: l.IsWait() ==> At(k'.lists, l) == At(k.lists, l))
    && (forall x :: 0 <= x < |k.tcbs| ==> SameCall(k.tcbs[x], k'.tcbs[x]))
  }

  /** Task `t` has left whatever wait list it was on; nothing else about waiting changed. */
  ghost predicate Leaves(k: Kernel, k': Kernel, t: Tid) {
    && Same(k, k')
    && (forall l: ListId :: l.IsWait() ==> At(k'.lists, l) == Drop(At(k.lists, l), t))
    && (forall x :: 0 <= x < |k.tcbs| && x != t ==> SameCall(k.tcbs[x], k'.tcbs[x]))
  }

  ghost predicate Same(k: Kernel, k': Kernel) {
    k'.cfg == k.cfg && |k'.tcbs| == |k.tcbs| && k'.obj == k.obj
  }

  predicate SameCall(c: Tcb, c': Tcb) {
    && c'.call == c.call && c'.eventMask == c.eventMask && c'.eventMode == c.eventMode
    && c'.st.pend == c.st.pend && c'.st.timeout == c.st.timeout && c'.st.unused == c.st.unused
  }

  lemma OffWaitLists(k: Kernel, t: Tid)
    requires Shape(k) && t < k.cfg.tasks && Placed(k, t) && !k.tcbs[t].st.pend
    ensures forall l: ListId :: l.IsWait() ==> t !in At(k.lists, l)
  {
    forall l: ListId | l.IsWait() ensures t !in At(k.lists, l) {
      assert On(k, l, t) ==> Home(l, k.tcbs[t], t == k.cfg.idle);
    }
  }

  lemma EnQueueQuiet(k: Kernel, t: Tid)
    requires t < |k.tcbs| && !k.tcbs[t].st.pend
    ensures Quiet(k, EnQueue(k, t))
  {
    var k' := EnQueue(k, t);
    forall l: ListId | l.IsWait() ensures At(k'.lists, l) == At(k.lists, l) {
      assert !l.ReadyList?;
    }
  }

  lemma DeQueueQuiet(k: Kernel, t: Tid)
    requires Shape(k) && t < k.cfg.tasks && Placed(k, t) && FlagsOK(k.tcbs[t], t == k.cfg.idle)
    ensures Quiet(k, DeQueue(k, t))
  {
    if k.tcbs[t].st.ready {
      OffWaitLists(k, t);
    }
  }

  lemma WaitOK(k: Kernel, call: Call, ticks: nat)
    requires Settled(k) && k.run != k.cfg.idle && k.tcbs[k.run].call.NoCall? && !call.NoCall?
    ensures SchedOK(Wait(k, call, ticks))
  {
    var k' := Wait(k, call, ticks);
    var t := k.run;
    assert TaskOK(k, t);
    forall l ensures !On(k, l, t) {
      assert On(k, l, t) ==> Home(l, k.tcbs[t], false);
    }
    var k1 := SetTcb(k, t, k'.tcbs[t]);
    SetTcbEffect(k, t, k'.tcbs[t]);
    PushEffect(k1, WaitListOf(call), t, false);
    OneTaskStep(k, k', t);
  }

  /** Taken off its list and off the deadline queue, with `c` as its new control block. */
  function Detach(k: Kernel, t: Tid, c: Tcb): Kernel
    requires t < |k.tcbs|
  {
    SetTcb(k.(lists := Unlink(k.lists, t), timers := Remove(k.timers, t)), t, c)
  }

  lemma DetachEffect(k: Kernel, t: Tid, c: Tcb)
    requires Shape(k) && ListsOK(k) && t < k.cfg.tasks
    ensures var k' := Detach(k, t, c);
            OthersSame(k, k', t) && ListsOK(k') && OnNone(k', t) && !Timed(k', t)
  {
    var k0 := k.(lists := Unlink(k.lists, t));
    UnlinkEffect(k, t);
    var k1 := k0.(timers := Remove(k.timers, t));
    UntimeEffect(k0, t);
    SetTcbEffect(k1, t, c);
    OthersSameTrans(k, k0, k1, t);
    OthersSameTrans(k, k1, Detach(k, t, c), t);
  }

  lemma DetachLeaves(k: Kernel, t: Tid, c: Tcb)
    requires t < |k.tcbs|
    ensures Leaves(k, Detach(k, t, c), t)
  {
  }

  lemma EnQueuedTaskOK(k: Kernel, t: Tid)
    requires Shape(k) && ListsOK(k) && OnNone(k, t) && !Timed(k, t)
    requires t < k.cfg.tasks && t != k.run && k.tcbs[t].start <= k.now && k.tcbs[t].prio <= LOWEST
    requires var f := k.tcbs[t].st; !f.unused && !f.running && (f.timeout ==> !k.tcbs[t].call.NoCall?)
    requires t == k.cfg.idle ==> k.tcbs[t].call.NoCall?
    ensures TaskOK(EnQueue(k, t), t)
  {
    EnQueueEffect(k, t);
    var k' := EnQueue(k, t);
    assert FlagsOK(k'.tcbs[t], t == k.cfg.idle);
    assert Placed(k', t);
  }

  /** A task off every list may be made ready. */
  lemma ReadyOK(k: Kernel, k1: Kernel, t: Tid)
    requires SchedOKBut(k, t) && OthersSame(k, k1, t) && ListsOK(k1) && OnNone(k1, t) && !Timed(k1, t)
    requires t < k.cfg.tasks && t != k.run && k1.tcbs[t].start <= k.now && k1.tcbs[t].prio <= LOWEST
    requires var f := k1.tcbs[t].st; !f.unused && !f.running && (f.timeout ==> !k1.tcbs[t].call.NoCall?)
    requires t == k.cfg.idle ==> k1.tcbs[t].call.NoCall?
    ensures SchedOK(EnQueue(k1, t))
  {
    EnQueueEffect(k1, t);
    EnQueuedTaskOK(k1, t);
    var k2 := EnQueue(k1, t);
    OthersSameTrans(k, k1, k2, t);
    OneTaskStep(k, k2, t);
  }

  lemma UntimedRemove(k: Kernel, t: Tid)
    requires !Timed(k, t)
    ensures k.(timers := Remove(k.timers, t)) == k
  {
  }

  lemma WakeShape(k: Kernel, t: Tid)
    requires Shape(k) && t < k.cfg.tasks && Placed(k, t) && k.tcbs[t].st.pend && !k.tcbs[t].st.delay && t != k.run
    ensures var c := k.tcbs[t];
            var k1 := Detach(k, t, c.(st := c.st.(pend := false, pendTime := false)));
            Wake(k, t) == if c.st.suspend then k1 else EnQueue(k1, t)
  {
    if !k.tcbs[t].st.pendTime {
      UntimedRemove(k, t);
    }
  }

  lemma WakeOK(k: Kernel, t: Tid)
    requires SchedOK(k) && t < k.cfg.tasks && t != k.run && k.tcbs[t].st.pend
    ensures SchedOK(Wake(k, t))
  {
    var c := k.tcbs[t];
    assert TaskOK(k, t);
    WakeShape(k, t);
    var c1 := c.(st := c.st.(pend := false, pendTime := false));
    var k1 := Detach(k, t, c1);
    DetachEffect(k, t, c1);
    if c.st.suspend {
      OneTaskStep(k, k1, t);
    } else {
      ReadyOK(k, k1, t);
    }
  }

  lemma WakeIdle(k: Kernel, t: Tid)
    requires t < |k.tcbs| && IdleMade(k)
    ensures IdleMade(Wake(k, t))
  {
    hide Unlink;
  }

  /** A grant takes the task off its wait list and off the deadline queue, so it cannot time out any more. */
  lemma WakeGrants(k: Kernel, t: Tid)
    requires SchedOK(k) && t < k.cfg.tasks && t != k.run && k.tcbs[t].st.pend
    ensures var k' := Wake(k, t);
            && Leaves(k, k', t) && k'.run == k.run && k'.tcbs[k.run] == k.tcbs[k.run]
            && !k'.tcbs[t].st.pend && !k'.tcbs[t].st.timeout && k'.tcbs[t].call == k.tcbs[t].call
            && k'.tcbs[t].prio == k.tcbs[t].prio
            && k'.tcbs[t].st.ready == !k.tcbs[t].st.suspend
            && !Timed(k', t) && (forall l: ListId :: l.IsWait() ==> !On(k', l, t))
  {
    var c := k.tcbs[t];
    assert TaskOK(k, t);
    WakeShape(k, t);
    var c1 := c.(st := c.st.(pend := false, pendTime := false));
    var k1 := Detach(k, t, c1);
    DetachEffect(k, t, c1);
    DetachLeaves(k, t, c1);
    if !c.st.suspend {
      EnQueueQuiet(k1, t);
    }
  }

  // ---- The task switch ----

  /** Nobody runs: the running task has given up the processor. */
  function Release(k: Kernel): Kernel
    requires k.run < |k.tcbs|
  {
    var c := k.tcbs[k.run];
    SetTcb(k, k.run, c.(st := c.st.(running := false))).(run := k.cfg.tasks)
  }

  function Elect(k: Kernel, n: Tid, start: nat): Kernel
    requires n < |k.tcbs|
  {
    var k1 := DeQueue(k, n);
    var c := k1.tcbs[n];
    SetTcb(k1, n, c.(st := c.st.(running := true), start := start)).(run := n)
  }

  lemma DispatchIsElect(k: Kernel, n: Tid)
    requires Shape(k) && n < k.cfg.tasks
    requires k.tcbs[k.run].st.running
    ensures Dispatch(k, n) == Elect(Release(k), n, k.tcbs[k.run].start)
  {
    if n == k.run {
      DispatchSelf(k);
    } else {
      DispatchOther(k, n);
    }
    hide Dispatch, Elect, Release;
  }

  lemma DispatchSelf(k: Kernel)
    requires Shape(k) && k.run < k.cfg.tasks && k.tcbs[k.run].st.running
    ensures Dispatch(k, k.run) == Elect(Release(k), k.run, k.tcbs[k.run].start)
  {
    hide Unlink;
    assert Dispatch(k, k.run).tcbs == Elect(Release(k), k.run, k.tcbs[k.run].start).tcbs;
  }

  lemma DispatchOther(k: Kernel, n: Tid)
    requires Shape(k) && n < k.cfg.tasks && n != k.run
    ensures Dispatch(k, n) == Elect(Release(k), n, k.tcbs[k.run].start)
  {
    hide Unlink;
    assert Dispatch(k, n).tcbs == Elect(Release(k), n, k.tcbs[k.run].start).tcbs;
  }

  lemma ReleaseBut(k: Kernel)
    requires SchedOK(k)
    ensures var kr := Release(k);
            && SchedOKBut(kr, k.run) && !Timed(kr, k.run)
            && (forall l, x: Tid :: On(kr, l, x) <==> On(k, l, x))
            && Quiet(k, kr)
  {
    var kr := Release(k);
    TimersUnmoved(k, kr);
    if k.run < k.cfg.tasks {
      assert TaskOK(k, k.run);
    }
    assert forall l, x: Tid :: On(kr, l, x) <==> On(k, l, x);
    forall x | 0 <= x < k.cfg.tasks && x != k.run ensures TaskOK(kr, x) {
      StillOK(k, kr, x);
    }
    assert ListsOK(kr);
    assert !Timed(kr, k.run);
  }

  /** What `Park` does to a task that has been released. */
  function ParkAt(k: Kernel, p: Tid): Kernel
    requires p < |k.tcbs|
  {
    var c := k.tcbs[p];
    if c.st.pendTime || c.st.delay then
      k.(timers := Insert(k.timers, Entry(p, Deadline(c.start, c.waitTicks, k.cfg.cyclesPerTick))))
    else if c.st.pend || c.st.suspend || c.st.unused then k
    else EnQueue(k, p)
  }

  lemma SetTcbTwice(k: Kernel, t: Tid, c: Tcb, d: Tcb)
    requires t < |k.tcbs|
    ensures SetTcb(SetTcb(k, t, c), t, d) == SetTcb(k, t, d)
  {
    assert k.tcbs[t := c][t := d] == k.tcbs[t := d];
  }

  lemma ParkRelease(k: Kernel)
    requires Shape(k)
    ensures Release(Park(k)) == ParkAt(Release(k), k.run)
  {
    var p := k.run;
    var c := k.tcbs[p];
    var c1 := c.(st := c.st.(running := false));
    if !c.st.pendTime && !c.st.delay && !c.st.pend && !c.st.suspend && !c.st.unused {
      var e, e1 := EnQueue(k, p).tcbs[p], EnQueue(SetTcb(k, p, c1), p).tcbs[p];
      SetTcbTwice(k, p, e, e1);
      SetTcbTwice(k, p, c1, e1);
    }
  }

  lemma ParkedOK(k: Kernel)
    requires SchedOK(k)
    requires k.run == k.cfg.tasks ==> k.tcbs[k.run].st.unused && !k.tcbs[k.run].st.pendTime && !k.tcbs[k.run].st.delay
    ensures SchedOK(Release(Park(k)))
  {
    var p := k.run;
    var c := k.tcbs[p];
    var kr := Release(k);
    ReleaseBut(k);
    ParkRelease(k);
    var k1 := ParkAt(kr, p);
    if p < k.cfg.tasks {
      assert TaskOK(k, p);
      if c.st.pendTime || c.st.delay {
        TimeEffect(kr, p, Deadline(c.start, c.waitTicks, k.cfg.cyclesPerTick));
        assert TaskOK(k1, p);
        OneTaskStep(kr, k1, p);
      } else if c.st.pend || c.st.suspend || c.st.unused {
        assert TaskOK(kr, p);
      } else {
        forall l ensures !On(kr, l, p) {
          assert On(k, l, p) ==> Home(l, c, p == k.cfg.idle);
        }
        ReadyOK(kr, kr, p);
      }
    }
  }

  lemma ParkQuiet(k: Kernel)
    requires SchedOK(k)
    ensures Quiet(k, Release(Park(k)))
  {
    var p := k.run;
    var c := k.tcbs[p];
    var kr := Release(k);
    ReleaseBut(k);
    ParkRelease(k);
    if !c.st.pend {
      EnQueueQuiet(kr, p);
    }
  }

  lemma {:induction false} TopFromIsFirst(k: Kernel, p: nat) returns (q: nat)
    requires p <= LOWEST + 1
    ensures p <= q <= LOWEST + 1
    ensures forall r :: p <= r < q ==> At(k.lists, ReadyList(r)) == []
    ensures if q == LOWEST + 1 then TopFrom(k, p) == k.cfg.idle
            else At(k.lists, ReadyList(q)) != [] && TopFrom(k, p) == At(k.lists, ReadyList(q))[0]
    decreases LOWEST + 1 - p
  {
    if p <= LOWEST && At(k.lists, ReadyList(p)) == [] {
      q := TopFromIsFirst(k, p + 1);
    } else {
      q := p;
    }
  }

  /** No ready task is more urgent than `n`; the idle task is chosen only when no other task is ready. */
  ghost predicate Best(k: Kernel, n: Tid)
    requires Shape(k)
  {
    && n < k.cfg.tasks
    && forall t :: 0 <= t < k.cfg.tasks && t != k.cfg.idle && k.tcbs[t].st.ready
         ==> n != k.cfg.idle && k.tcbs[n].prio <= k.tcbs[t].prio
  }

  lemma OnReadyList(k: Kernel, q: nat, t: Tid)
    requires SchedOK(k) && On(k, ReadyList(q), t)
    ensures t < k.cfg.tasks && t != k.cfg.idle && k.tcbs[t].st.ready && k.tcbs[t].prio == q
  {
    assert TaskOK(k, t);
  }

  lemma TopIsBest(k: Kernel)
    requires SchedOK(k) && k.run == k.cfg.tasks && IdleMade(k)
    ensures Best(k, Top(k)) && k.tcbs[Top(k)].st.ready
  {
    var q := TopFromIsFirst(k, 0);
    var n := Top(k);
    assert TaskOK(k, k.cfg.idle);
    if q <= LOWEST {
      assert n in At(k.lists, ReadyList(q));
      OnReadyList(k, q, n);
    }
    forall t | 0 <= t < k.cfg.tasks && t != k.cfg.idle && k.tcbs[t].st.ready
      ensures q <= k.tcbs[t].prio <= LOWEST
    {
      assert TaskOK(k, t);
      assert On(k, ReadyList(k.tcbs[t].prio), t);
    }
  }

  lemma ElectOK(k: Kernel, n: Tid, start: nat)
    requires SchedOK(k) && k.run == k.cfg.tasks && n < k.cfg.tasks && k.tcbs[n].st.ready && start <= k.now
    requires IdleMade(k)
    ensures Settled(Elect(k, n, start))
  {
    assert TaskOK(k, n);
    DeQueueEffect(k, n);
    var k1 := DeQueue(k, n);
    var k' := Elect(k, n, start);
    TimersUnmoved(k1, k');
    assert forall l, x: Tid :: On(k', l, x) <==> On(k1, l, x);
    forall x | 0 <= x < k.cfg.tasks && x != n ensures TaskOK(k', x) {
      StillOK(k, k', x);
    }
    assert Placed(k', n);
    assert ListsOK(k');
  }

  lemma ChargeSliceOK(k: Kernel, now: nat)
    requires SchedOK(k) && k.now <= now
    ensures SchedOK(ChargeSlice(k, now)) && Quiet(k, ChargeSlice(k, now))
  {
    var k' := ChargeSlice(k, now);
    TimersUnmoved(k, k');
    assert forall l, x: Tid :: On(k', l, x) <==> On(k, l, x);
    forall x | 0 <= x < k.cfg.tasks ensures TaskOK(k', x) {
      if x != k.run {
        StillOK(k, k', x);
      } else {
        assert TaskOK(k, x);
        assert Placed(k', x);
      }
    }
    assert ListsOK(k');
  }

  /** The running task is a real one, or the stand-in of a task that deleted itself. */
  predicate Switchable(k: Kernel)
    requires k.run < |k.tcbs|
  {
    var f := k.tcbs[k.run].st;
    IdleMade(k) && f.running && (k.run == k.cfg.tasks ==> f.unused && !f.pendTime && !f.delay)
  }

  lemma SettledSwitchable(k: Kernel)
    requires Settled(k)
    ensures Switchable(k)
  {
    assert TaskOK(k, k.run);
  }

  /** Everything a switch does before it elects the next task. */
  function Parked(k: Kernel, now: nat): Kernel
    requires k.run < |k.tcbs|
  {
    Release(Park(ChargeSlice(k, now)))
  }

  lemma ParkedFacts(k: Kernel, now: nat)
    requires SchedOK(k) && Switchable(k) && k.now <= now
    ensures SchedOK(Parked(k, now)) && Quiet(k, Parked(k, now)) && Parked(k, now).now == now
    ensures Parked(k, now).run == k.cfg.tasks
  {
    var k0 := ChargeSlice(k, now);
    ChargeSliceOK(k, now);
    ParkedOK(k0);
    ParkQuiet(k0);
  }

  lemma ParkFrame(k: Kernel)
    requires Shape(k)
    ensures var k1 := Park(k);
            && Shape(k1) && k1.cfg == k.cfg && k1.run == k.run && k1.now == k.now
            && k1.tcbs[k.run].start == k.tcbs[k.run].start && k1.tcbs[k.run].st.running == k.tcbs[k.run].st.running
  {
  }

  lemma ChargeSliceFrame(k: Kernel, now: nat)
    requires Shape(k)
    ensures var k0 := ChargeSlice(k, now);
            && Shape(k0) && k0.cfg == k.cfg && k0.run == k.run && k0.now == now
            && k0.tcbs[k.run].start == now && k0.tcbs[k.run].st == k.tcbs[k.run].st
  {
  }

  lemma IdleStays(k: Kernel, k': Kernel)
    requires Quiet(k, k') && IdleMade(k)
    ensures IdleMade(k')
  {
    assert SameCall(k.tcbs[k.cfg.idle], k'.tcbs[k.cfg.idle]);
  }

  lemma SwitchIsElect(k: Kernel, now: nat)
    requires SchedOK(k) && Switchable(k) && k.now <= now
    ensures var kr := Parked(k, now);
            && Top(kr) < k.cfg.tasks && Top(Park(ChargeSlice(k, now))) == Top(kr)
            && IdleMade(kr) && Best(kr, Top(kr)) && kr.tcbs[Top(kr)].st.ready
            && Switch(k, now) == Elect(kr, Top(kr), now)
  {
    ParkedFacts(k, now);
    IdleStays(k, Parked(k, now));
    TopIsBest(Parked(k, now));
    ChargeSliceFrame(k, now);
    ParkFrame(ChargeSlice(k, now));
    var k1 := Park(ChargeSlice(k, now));
    assert Release(k1).cfg == k1.cfg && Release(k1).lists == k1.lists;
    SameTop(k1, Release(k1), 0);
    DispatchIsElect(k1, Top(k1));
  }

  lemma {:induction false} SameTop(k: Kernel, k': Kernel, p: nat)
    requires k'.cfg == k.cfg && k'.lists == k.lists && p <= LOWEST + 1
    ensures TopFrom(k', p) == TopFrom(k, p)
    decreases LOWEST + 1 - p
  {
    if p <= LOWEST {
      SameTop(k, k', p + 1);
    }
  }

  lemma ElectKeepsBest(k: Kernel, n: Tid, start: nat)
    requires SchedOK(k) && n < k.cfg.tasks && k.tcbs[n].st.ready && Best(k, n)
    ensures Quiet(k, Elect(k, n, start)) && Best(Elect(k, n, start), n)
  {
    assert TaskOK(k, n);
    DeQueueQuiet(k, n);
    DeQueueEffect(k, n);
  }

  /** A task switch leads to a settled state and picks a most urgent task. */
  lemma SwitchOK(k: Kernel, now: nat)
    requires SchedOK(k) && Switchable(k) && k.now <= now
    ensures Top(Park(ChargeSlice(k, now))) < |k.tcbs|
    ensures Settled(Switch(k, now)) && Switch(k, now).now == now && Best(Switch(k, now), Switch(k, now).run)
    ensures Quiet(k, Switch(k, now))
  {
    hide SchedOK, Settled, Best, Switch, Top, Elect, Park, ChargeSlice, Parked;
    SchedShape(k);
    ParkedFacts(k, now);
    SwitchIsElect(k, now);
    var kr := Parked(k, now);
    SchedShape(kr);
    ElectOK(kr, Top(kr), now);
    ElectKeepsBest(kr, Top(kr), now);
    Elected(kr, Top(kr), now);
  }

  lemma SchedShape(k: Kernel)
    requires SchedOK(k)
    ensures Shape(k)
  {
  }

  lemma Elected(k: Kernel, n: Tid, start: nat)
    requires n < |k.tcbs|
    ensures Elect(k, n, start).run == n && Elect(k, n, start).now == k.now
  {
    hide DeQueue;
  }

  // ---- Leaving a wait by deletion, priority change or timeout ----

  lemma ExitOK(k: Kernel, t: Tid)
    requires SchedOK(k) && t < k.cfg.tasks && t != k.cfg.idle && !k.tcbs[t].st.unused
    ensures var k' := Exit(k, t);
            && OthersSame(k, k', t) && ListsOK(k') && OnNone(k', t) && !Timed(k', t)
            && Leaves(k, k', t)
            && k'.tcbs[t] == k.tcbs[t].(st := k'.tcbs[t].st)
            && k'.tcbs[t].st.running == k.tcbs[t].st.running
  {
    var c := k.tcbs[t];
    var k' := Exit(k, t);
    assert TaskOK(k, t);
    assert !c.st.delay && !c.st.pendTime ==> !Timed(k, t);
    ExitIsDetach(k, t);
    DetachEffect(k, t, k'.tcbs[t]);
    DetachLeaves(k, t, k'.tcbs[t]);
  }

  lemma UnlinkedNowhere(k: Kernel, t: Tid)
    requires OnNone(k, t)
    ensures forall l :: At(Unlink(k.lists, t), l) == At(k.lists, l)
    ensures Unlink(k.lists, t) == k.lists
  {
    forall l ensures At(Unlink(k.lists, t), l) == At(k.lists, l) {
      assert !On(k, l, t);
    }
    var r := Unlink(k.lists, t);
    forall l | l in k.lists ensures r[l] == k.lists[l] {
      assert At(r, l) == At(k.lists, l);
    }
  }

  lemma ExitIsDetach(k: Kernel, t: Tid)
    requires Shape(k) && t < k.cfg.tasks && TaskOK(k, t) && t != k.cfg.idle && !k.tcbs[t].st.unused
    ensures Exit(k, t) == Detach(k, t, Exit(k, t).tcbs[t])
  {
    var c := k.tcbs[t];
    if !c.st.ready && !c.st.pend {
      forall l ensures !On(k, l, t) {
        assert On(k, l, t) ==> Home(l, c, false);
      }
      UnlinkedNowhere(k, t);
    }
    if !c.st.delay && !c.st.pendTime {
      if t == k.run {
        assert !Timed(k, t);
      }
      UntimedRemove(k, t);
    }
    assert Exit(k, t).tcbs == Detach(k, t, Exit(k, t).tcbs[t]).tcbs;
  }

  lemma ModifyPrioOK(k: Kernel, t: Tid, prio: nat)
    requires SchedOK(k) && t < k.cfg.tasks && prio <= LOWEST
    ensures SchedOK(ModifyPrio(k, t, prio))
  {
    var c := k.tcbs[t];
    assert TaskOK(k, t);
    if c.st.ready {
      DeQueueEffect(k, t);
      var k1 := DeQueue(k, t);
      var c2 := k1.tcbs[t].(prio := prio);
      var k2 := SetTcb(k1, t, c2);
      SetTcbEffect(k1, t, c2);
      OthersSameTrans(k, k1, k2, t);
      ReadyOK(k, k2, t);
    } else {
      var k' := ModifyPrio(k, t, prio);
      SetTcbEffect(k, t, c.(prio := prio));
      assert Placed(k', t);
      OneTaskStep(k, k', t);
    }
  }

  lemma ModifyPrioFrame(k: Kernel, t: Tid, prio: nat)
    requires SchedOK(k) && t < k.cfg.tasks
    ensures var k' := ModifyPrio(k, t, prio);
            && Quiet(k, k') && k'.run == k.run && k'.now == k.now
            && k'.tcbs[t].prio == prio && k'.tcbs[t].st == k.tcbs[t].st
            && (forall x :: 0 <= x < |k.tcbs| && x != t ==> k'.tcbs[x] == k.tcbs[x])
  {
    assert TaskOK(k, t);
    if k.tcbs[t].st.ready {
      DeQueueQuiet(k, t);
    }
  }

  // ---- The timer scan ----

  /** The control block of a task whose deadline has passed. */
  function Expired(c: Tcb, full: int, min: int, idle: bool): Tcb {
    var st := c.st.(pend := false, pendTime := false, delay := false, timeout := c.st.timeout || c.st.pend);
    if c.st.suspend then c.(st := st)
    else c.(st := st.(ready := true), slice := if idle || c.slice > min then c.slice else full)
  }

  ghost predicate Due(k: Kernel, t: Tid, now: nat) {
    exists e :: e in k.timers && e.id == t && e.time <= now
  }

  /** One round of the scan: the head of the deadline queue is taken off and its task woken. */
  function ScanStep(k: Kernel): Kernel
    requires k.timers != [] && k.timers[0].id < |k.tcbs|
  {
    TimeoutWake(k.(timers := Remove(k.timers, k.timers[0].id)), k.timers[0].id)
  }

  lemma HeadTimed(k: Kernel)
    requires SchedOK(k) && k.timers != []
    ensures var t := k.timers[0].id;
            && t < k.cfg.tasks && t != k.run && t != k.cfg.idle
            && TaskOK(k, t) && (k.tcbs[t].st.delay || k.tcbs[t].st.pendTime)
            && Remove(k.timers, t) == k.timers[1..]
  {
    var t := k.timers[0].id;
    assert k.timers[0] in k.timers;
    assert Timed(k, t);
    assert TaskOK(k, t);
    RemoveAt(k.timers, 0);
    assert k.timers[..0] == [];
  }

  lemma ScanStepIsDetach(k: Kernel)
    requires SchedOK(k) && k.timers != [] && k.timers[0].id < |k.tcbs|
    ensures var t := k.timers[0].id;
            var c := k.tcbs[t];
            var c1 := c.(st := c.st.(pend := false, pendTime := false, delay := false,
                                     timeout := c.st.timeout || c.st.pend));
            t < k.cfg.tasks
            && ScanStep(k) == if c.st.suspend then Detach(k, t, c1) else EnQueue(Detach(k, t, c1), t)
  {
    HeadTimed(k);
    var t := k.timers[0].id;
    var c := k.tcbs[t];
    if c.st.delay {
      assert !c.st.timeout;
      forall l ensures !On(k, l, t) {
        assert On(k, l, t) ==> Home(l, c, false);
      }
      UnlinkedNowhere(k, t);
    }
  }

  lemma ScanStepOK(k: Kernel)
    requires SchedOK(k) && k.timers != []
    ensures var t := k.timers[0].id;
            && t < k.cfg.tasks && t != k.run
            && SchedOK(ScanStep(k)) && OthersSame(k, ScanStep(k), t) && Leaves(k, ScanStep(k), t)
            && ScanStep(k).timers == k.timers[1..]
            && ScanStep(k).tcbs[t] == Expired(k.tcbs[t], k.cfg.sliceFull, k.cfg.sliceMin, false)
  {
    HeadTimed(k);
    ScanStepIsDetach(k);
    var t := k.timers[0].id;
    var c := k.tcbs[t];
    var c1 := c.(st := c.st.(pend := false, pendTime := false, delay := false, timeout := c.st.timeout || c.st.pend));
    var k1 := Detach(k, t, c1);
    DetachEffect(k, t, c1);
    DetachLeaves(k, t, c1);
    if c.st.suspend {
      OneTaskStep(k, k1, t);
    } else {
      EnQueueEffect(k1, t);
      ReadyOK(k, k1, t);
      EnQueueQuiet(k1, t);
    }
  }

  predicate HeadDue(k: Kernel, now: nat) {
    k.timers != [] && k.timers[0].time <= now
  }

  ghost predicate Scannable(k: Kernel) {
    forall e :: e in k.timers ==> e.id < |k.tcbs|
  }

  lemma SchedScannable(k: Kernel)
    requires SchedOK(k)
    ensures Scannable(k)
  {
    forall e | e in k.timers ensures e.id < |k.tcbs| {
      assert Timed(k, e.id);
    }
  }

  /** The scan seen as a sequence of rounds, each of which keeps the scheduler invariant. */
  lemma ScanUnfold(k: Kernel, now: nat)
    requires SchedOK(k)
    ensures Scannable(k)
    ensures HeadDue(k, now) ==>
              && Scannable(ScanStep(k)) && SchedOK(ScanStep(k))
              && ScanTimers(k, now).0 == ScanTimers(ScanStep(k), now).0
              && ScanTimers(k, now).1 == (Woken(k, k.timers[0].id) || ScanTimers(ScanStep(k), now).1)
    ensures !HeadDue(k, now) ==> ScanTimers(k, now) == (k, false) && forall t :: !Due(k, t, now)
  {
    SchedScannable(k);
    if HeadDue(k, now) {
      ScanStepOK(k);
      SchedScannable(ScanStep(k));
    }
  }

  lemma {:induction false} ScanOK(k: Kernel, now: nat)
    requires SchedOK(k)
    ensures Scannable(k)
    ensures var k' := ScanTimers(k, now).0;
            SchedOK(k') && k'.run == k.run && k'.now == k.now && Same(k, k') && k'.tcbs[k.run] == k.tcbs[k.run]
    decreases |k.timers|
  {
    ScanUnfold(k, now);
    if HeadDue(k, now) {
      ScanStepOK(k);
      ScanOK(ScanStep(k), now);
    }
  }

  /** `r` is what is left of `s` once every entry due at `now` is gone. */
  ghost predicate LeftAfter(s: seq<Entry>, r: seq<Entry>, now: nat) {
    && |r| <= |s| && r == s[|s| - |r|..]
    && forall i :: 0 <= i < |s| ==> (s[i].time <= now <==> i < |s| - |r|)
  }

  lemma NothingLeft(s: seq<Entry>, now: nat)
    requires Sorted(s) && (s == [] || s[0].time > now)
    ensures LeftAfter(s, s, now)
  {
    assert s[0..] == s;
  }

  lemma LeftAfterHead(s: seq<Entry>, r: seq<Entry>, now: nat)
    requires s != [] && s[0].time <= now && LeftAfter(s[1..], r, now)
    ensures LeftAfter(s, r, now)
  {
    forall i | 0 <= i < |s| ensures s[i].time <= now <==> i < |s| - |r| {
      assert i > 0 ==> s[i] == s[1..][i - 1];
    }
  }

  /** The scan takes off exactly the entries that are due and leaves the rest in order. */
  lemma {:induction false} ScanRemovesDue(k: Kernel, now: nat)
    requires SchedOK(k)
    ensures Scannable(k)
    ensures LeftAfter(k.timers, ScanTimers(k, now).0.timers, now)
    decreases |k.timers|
  {
    ScanUnfold(k, now);
    if HeadDue(k, now) {
      ScanStepOK(k);
      ScanRemovesDue(ScanStep(k), now);
      LeftAfterHead(k.timers, ScanTimers(k, now).0.timers, now);
    } else {
      NothingLeft(k.timers, now);
    }
  }

  /**
   * A task that was due gets the timeout mark if it was waiting for an object, and becomes ready unless it is
   * suspended; every other task keeps its control block and its place.
   */
  lemma {:induction false} ScanExact(k: Kernel, now: nat, t: Tid)
    requires SchedOK(k) && t < k.cfg.tasks
    ensures Scannable(k)
    ensures var k' := ScanTimers(k, now).0;
            if Due(k, t, now) then k'.tcbs[t] == Expired(k.tcbs[t], k.cfg.sliceFull, k.cfg.sliceMin, false)
            else k'.tcbs[t] == k.tcbs[t] && forall l :: On(k', l, t) <==> On(k, l, t)
    decreases |k.timers|
  {
    ScanUnfold(k, now);
    if HeadDue(k, now) {
      ScanStepOK(k);
      DueStep(k, ScanStep(k), t, now);
      ScanExact(ScanStep(k), now, t);
    }
  }

  /** The scan asks for a reschedule exactly when it made some task ready. */
  lemma {:induction false} ScanNeed(k: Kernel, now: nat)
    requires SchedOK(k)
    ensures Scannable(k)
    ensures ScanTimers(k, now).1 <==> exists t :: 0 <= t < k.cfg.tasks && Due(k, t, now) && !k.tcbs[t].st.suspend
    decreases |k.timers|
  {
    ScanUnfold(k, now);
    if HeadDue(k, now) {
      var h := k.timers[0].id;
      var k1 := ScanStep(k);
      ScanStepOK(k);
      HeadTimed(k);
      ScanNeed(k1, now);
      forall t: Tid ensures Due(k, t, now) <==> Due(k1, t, now) || t == h {
        DueStep(k, k1, t, now);
      }
      DueStep(k, k1, h, now);
      assert h < k.cfg.tasks && Due(k, h, now);
      assert Woken(k, h) == !k.tcbs[h].st.suspend;
    }
  }

  /**
   * What the scan makes of task `t`. If it was due: it is timed no longer, marked as timed out if it waited for an
   * object, and on the ready list of its priority unless it is suspended. If not: nothing about it changed. The scan
   * asks for a reschedule exactly when it made some task ready.
   */
  lemma ScanOutcome(k: Kernel, now: nat, t: Tid)
    requires SchedOK(k) && t < k.cfg.tasks
    ensures Scannable(k)
    ensures var (k', need) := ScanTimers(k, now);
            && (if Due(k, t, now) then
                  && k'.tcbs[t] == Expired(k.tcbs[t], k.cfg.sliceFull, k.cfg.sliceMin, false) && !Timed(k', t)
                  && forall l :: On(k', l, t) <==> !k.tcbs[t].st.suspend && l == ReadyList(k.tcbs[t].prio)
                else
                  && k'.tcbs[t] == k.tcbs[t] && (Timed(k', t) <==> Timed(k, t))
                  && forall l :: On(k', l, t) <==> On(k, l, t))
            && (need <==> exists x :: 0 <= x < k.cfg.tasks && Due(k, x, now) && !k.tcbs[x].st.suspend)
  {
    ScanExact(k, now, t);
    ScanOK(k, now);
    ScanNeed(k, now);
    assert TaskOK(k, t);
    assert TaskOK(ScanTimers(k, now).0, t);
    if Due(k, t, now) {
      assert Timed(k, t);
    }
    hide ScanTimers, ListsOK;
  }

  lemma DueStep(k: Kernel, k1: Kernel, x: Tid, now: nat)
    requires k.timers != [] && k.timers[0].time <= now && k1.timers == k.timers[1..]
    requires UniqueIds(k.timers)
    ensures Due(k, x, now) <==> Due(k1, x, now) || x == k.timers[0].id
    ensures !Due(k1, k.timers[0].id, now)
  {
    assert k.timers[0] in k.timers;
    if Due(k, x, now) && x != k.timers[0].id {
      var e :| e in k.timers && e.id == x && e.time <= now;
      assert e in k.timers[1..];
    }
    if Due(k1, x, now) {
      var e :| e in k1.timers && e.id == x && e.time <= now;
      assert e in k.timers;
    }
  }
}
