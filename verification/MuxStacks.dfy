/** The mutexes each task holds, in the order it got them, and what one call does to them and to its priority. */
module MuxStacks {
  import opened Sequences
  import opened KernelState
  import opened Sched
  import opened SchedProofs
  import opened Invariants
  import opened TaskProofs
  import opened ObjectProofs
  import opened Machine
  import opened MachineProofs
  import opened Frames
  import opened Priorities
  import opened MuxHistory
  import Fates
  import Mutex
  import Outcomes
  import QueueProofs
  import Task

  // ---- Histories ----

  /** History: each task's base priority, and the mutexes it holds in the order it got them. */
  datatype Hist = Hist(base: seq<nat>, held: seq<seq<nat>>)

  function Give(h: Hist, t: Tid, m: nat): Hist
    requires t < |h.held|
  {
    h.(held := h.held[t := h.held[t] + [m]])
  }

  function TakeBack(h: Hist, t: Tid, m: nat): Hist
    requires t < |h.held|
  {
    h.(held := h.held[t := Drop(h.held[t], m)])
  }

  function Record(k: Kernel, op: Op, ret: Ret, h: Hist): Hist {
    if (op.TaskCreate? || op.TaskCreateOnly?) && ret.Id? && ret.id < |h.base| then h.(base := h.base[ret.id := op.prio])
    else if op.TaskPriSet? && ret == Ok && op.t < |h.base| then h.(base := h.base[op.t := op.prio])
    else if op.MuxPend? && ret == Ok && op.mux < |k.obj.muxes| && k.obj.muxes[op.mux].count == 0
         && k.run < |h.held| then
      Give(h, k.run, op.mux)
    else if op.MuxPost? && ret == Ok && op.mux < |k.obj.muxes| && k.obj.muxes[op.mux].count == 1
         && k.run < |h.held| then
      var h1 := TakeBack(h, k.run, op.mux);
      var l := At(k.lists, MuxList(op.mux));
      if l != [] && l[0] < |h.held| then Give(h1, l[0], op.mux) else h1
    else h
  }

  /** The priority its owner had when it got the mutex. */
  function Saved(k: Kernel, m: nat): nat {
    if m < |k.obj.muxes| then k.obj.muxes[m].prio else 0
  }

  ghost predicate Sized(k: Kernel, h: Hist) {
    Shape(k) && |h.base| == k.cfg.tasks && |h.held| == k.cfg.tasks
  }

  /** The history has the owners right. */
  ghost predicate Holds(k: Kernel, h: Hist) {
    && Sized(k, h)
    && (forall t :: 0 <= t < k.cfg.tasks ==> NoDup(h.held[t]))
    && (forall t, m: nat :: 0 <= t < k.cfg.tasks ==> (m in h.held[t] <==> Owns(k, t, m)))
  }

  // ---- What can happen to one task's stack ----

  ghost predicate SavedSame(k: Kernel, k': Kernel, s: seq<nat>) {
    forall m :: m in s ==> Saved(k', m) == Saved(k, m)
  }

  /** Nothing happened. */
  ghost predicate Rests(k: Kernel, k': Kernel, h: Hist, h': Hist, t: Tid)
    requires Sized(k, h) && Sized(k', h') && k'.cfg == k.cfg && t < k.cfg.tasks
  {
    && !k.tcbs[t].st.unused && h'.base[t] == h.base[t] && h'.held[t] == h.held[t] && SavedSame(k, k', h.held[t])
    && k'.tcbs[t].prio == k.tcbs[t].prio
  }

  /** A holder inherits the priority of a more urgent waiter. */
  ghost predicate Boosted(k: Kernel, k': Kernel, h: Hist, h': Hist, t: Tid)
    requires Sized(k, h) && Sized(k', h') && k'.cfg == k.cfg && t < k.cfg.tasks
  {
    && !k.tcbs[t].st.unused && h'.base[t] == h.base[t] && h'.held[t] == h.held[t] && SavedSame(k, k', h.held[t])
    && h.held[t] != [] && k'.tcbs[t].prio <= k.tcbs[t].prio
  }

  /** The task is new, or its priority was set. */
  ghost predicate Rebased(k: Kernel, k': Kernel, h: Hist, h': Hist, t: Tid)
    requires Sized(k, h) && Sized(k', h') && k'.cfg == k.cfg && t < k.cfg.tasks
  {
    h'.held[t] == h.held[t] && SavedSame(k, k', h.held[t]) && k'.tcbs[t].prio == h'.base[t]
  }

  /** The task got `m`, which saves its priority. */
  ghost predicate Pushed(k: Kernel, k': Kernel, h: Hist, h': Hist, t: Tid, m: nat)
    requires Sized(k, h) && Sized(k', h') && k'.cfg == k.cfg && t < k.cfg.tasks
  {
    && !k.tcbs[t].st.unused && h'.base[t] == h.base[t] && h'.held[t] == h.held[t] + [m]
    && SavedSame(k, k', h.held[t]) && Saved(k', m) == k.tcbs[t].prio == k'.tcbs[t].prio
  }

  /** The task gave `m` back, and has the priority that `m` saved. */
  ghost predicate Popped(k: Kernel, k': Kernel, h: Hist, h': Hist, t: Tid, m: nat)
    requires Sized(k, h) && Sized(k', h') && k'.cfg == k.cfg && t < k.cfg.tasks
  {
    && !k.tcbs[t].st.unused && h'.base[t] == h.base[t] && m in h.held[t] && h'.held[t] == Drop(h.held[t], m)
    && SavedSame(k, k', h'.held[t]) && k'.tcbs[t].prio == Saved(k, m)
  }

  /** The running task gives a mutex back for good. */
  predicate FinalRelease(k: Kernel, op: Op) {
    op.MuxPost? && Owns(k, k.run, op.mux) && k.obj.muxes[op.mux].count == 1
  }

  ghost predicate Moves(k: Kernel, op: Op, k': Kernel, h: Hist, h': Hist, t: Tid)
    requires Sized(k, h) && Sized(k', h') && k'.cfg == k.cfg && t < k.cfg.tasks
  {
    || Rests(k, k', h, h', t)
    || Boosted(k, k', h, h', t)
    || (Rebased(k, k', h, h', t) && ((op.TaskPriSet? && op.t == t) || h.held[t] == []))
    || (h'.held[t] != [] && Pushed(k, k', h, h', t, h'.held[t][|h'.held[t]| - 1]))
    || (FinalRelease(k, op) && t == k.run && Popped(k, k', h, h', t, op.mux))
  }

  /** A step from `k` to `k'`: the owners stay right, and each task that lives makes one of these moves. */
  ghost predicate Moved(k: Kernel, op: Op, k': Kernel, h: Hist, h': Hist) {
    && Holds(k, h) && Holds(k', h') && k'.cfg == k.cfg
    && (forall t :: 0 <= t < k.cfg.tasks && !k'.tcbs[t].st.unused ==> Moves(k, op, k', h, h', t))
    && (FinalRelease(k, op) && k.run < k.cfg.tasks ==>
          Popped(k, k', h, h', k.run, op.mux) && !k'.tcbs[k.run].st.unused)
  }

  ghost predicate AllRest(k: Kernel, k': Kernel, h: Hist) {
    && Holds(k, h) && Holds(k', h) && k'.cfg == k.cfg
    && forall t :: 0 <= t < k.cfg.tasks && !k'.tcbs[t].st.unused ==> Rests(k, k', h, h, t)
  }

  lemma RestIsMove(k: Kernel, op: Op, k': Kernel, h: Hist)
    requires AllRest(k, k', h) && !FinalRelease(k, op)
    ensures Moved(k, op, k', h, h)
  {
    hide Rests, Boosted, Rebased, Pushed, Popped, Holds;
    assert Holds(k, h) ==> Sized(k, h) by {
      HoldsSized(k, h);
    }
    HoldsSized(k', h);
  }

  lemma HoldsSized(k: Kernel, h: Hist)
    ensures Holds(k, h) ==> Sized(k, h)
  {
  }

  /** A step, and then one in which nothing happens to stacks and priorities. */
  lemma MovedOn(k: Kernel, op: Op, k1: Kernel, k2: Kernel, h: Hist, h1: Hist)
    requires Moved(k, op, k1, h, h1) && AllRest(k1, k2, h1)
    requires FinalRelease(k, op) ==> k.run < |k2.tcbs| && !k2.tcbs[k.run].st.unused
    ensures Moved(k, op, k2, h, h1)
  {
    HoldsSized(k, h);
    HoldsSized(k1, h1);
    HoldsSized(k2, h1);
    forall t | 0 <= t < k.cfg.tasks && !k2.tcbs[t].st.unused ensures Moves(k, op, k2, h, h1, t) {
      OneMovedOn(k, op, k1, k2, h, h1, t);
    }
    hide Holds, Moves;
  }

  lemma OneMovedOn(k: Kernel, op: Op, k1: Kernel, k2: Kernel, h: Hist, h1: Hist, t: Tid)
    requires Sized(k, h) && Sized(k1, h1) && Sized(k2, h1) && k1.cfg == k.cfg == k2.cfg && t < k.cfg.tasks
    requires Moves(k, op, k1, h, h1, t) && Rests(k1, k2, h1, h1, t)
    ensures Moves(k, op, k2, h, h1, t)
  {
  }

  /** Same owners, same saved priorities, same current priorities. */
  lemma SameOwners(k: Kernel, k': Kernel, h: Hist)
    requires Shape(k) && Shape(k') && k'.cfg == k.cfg && Holds(k, h) && PrioSame(k, k')
    requires forall t, m: nat :: 0 <= t < k.cfg.tasks ==> (Owns(k', t, m) <==> Owns(k, t, m))
    requires forall t, m: nat :: 0 <= t < k.cfg.tasks && Owns(k, t, m) ==> Saved(k', m) == Saved(k, m)
    requires forall t :: 0 <= t < k.cfg.tasks && !k'.tcbs[t].st.unused ==> !k.tcbs[t].st.unused
    ensures AllRest(k, k', h)
  {
    forall t | 0 <= t < k.cfg.tasks && !k'.tcbs[t].st.unused ensures Rests(k, k', h, h, t) {
      forall m | m in h.held[t] ensures Saved(k', m) == Saved(k, m) {
        assert Owns(k, t, m);
      }
    }
    hide Owns, Saved;
  }

  lemma SameMuxTable(k: Kernel, k': Kernel, h: Hist)
    requires Shape(k) && Shape(k') && k'.cfg == k.cfg && Holds(k, h) && PrioSame(k, k') && k'.obj.muxes == k.obj.muxes
    requires forall t :: 0 <= t < k.cfg.tasks && !k'.tcbs[t].st.unused ==> !k.tcbs[t].st.unused
    ensures AllRest(k, k', h)
  {
    forall t, m: nat ensures Owns(k', t, m) <==> Owns(k, t, m) {
    }
    SameOwners(k, k', h);
  }

  /** A change of one mutex that leaves its owner, if any, and its saved priority. */
  lemma OneMux(k: Kernel, k': Kernel, h: Hist, m: nat, x: Mux)
    requires Shape(k) && Shape(k') && k'.cfg == k.cfg && k'.tcbs == k.tcbs && Holds(k, h)
    requires m < |k.obj.muxes| && k'.obj.muxes == k.obj.muxes[m := x]
    requires x.count > 0 <==> k.obj.muxes[m].count > 0
    requires x.count > 0 ==> x.owner == k.obj.muxes[m].owner && x.prio == k.obj.muxes[m].prio
    ensures AllRest(k, k', h)
  {
    forall t, i: nat ensures Owns(k', t, i) <==> Owns(k, t, i) {
    }
    SameOwners(k, k', h);
  }

  // ---- Getting a mutex ----

  /** Mutex `m`, owned by nobody in `k`, is given to `t` and saves its priority. */
  ghost predicate Given(k: Kernel, k': Kernel, t: Tid, m: nat) {
    && Shape(k) && Shape(k') && k'.cfg == k.cfg && t < k.cfg.tasks
    && m < |k.obj.muxes| && k.obj.muxes[m].count == 0 && !k.tcbs[t].st.unused
    && |k'.obj.muxes| == |k.obj.muxes| && k'.obj.muxes[m].count > 0 && k'.obj.muxes[m].owner == Some(t)
    && k'.obj.muxes[m].prio == k.tcbs[t].prio
    && (forall i :: 0 <= i < |k.obj.muxes| && i != m ==> k'.obj.muxes[i] == k.obj.muxes[i])
    && (forall x :: 0 <= x < k.cfg.tasks ==>
          k'.tcbs[x].prio == k.tcbs[x].prio && k'.tcbs[x].st.unused == k.tcbs[x].st.unused)
  }

  lemma GivenHolds(k: Kernel, k': Kernel, h: Hist, t: Tid, m: nat)
    requires Holds(k, h) && Given(k, k', t, m)
    ensures Holds(k', Give(h, t, m)) && m !in h.held[t]
  {
    var h' := Give(h, t, m);
    forall x, i: nat | 0 <= x < k.cfg.tasks ensures i in h'.held[x] <==> Owns(k', x, i) {
      assert i in h.held[x] <==> Owns(k, x, i);
    }
    assert !Owns(k, t, m) && m !in h.held[t];
    forall x | 0 <= x < k.cfg.tasks ensures NoDup(h'.held[x]) {
      assert NoDup(h.held[x]);
    }
  }

  lemma GivenMoves(k: Kernel, k': Kernel, h: Hist, t: Tid, m: nat)
    requires Holds(k, h) && Given(k, k', t, m)
    ensures Holds(k', Give(h, t, m)) && Pushed(k, k', h, Give(h, t, m), t, m)
    ensures forall x :: 0 <= x < k.cfg.tasks && x != t && !k'.tcbs[x].st.unused ==> Rests(k, k', h, Give(h, t, m), x)
  {
    GivenHolds(k, k', h, t, m);
    var h' := Give(h, t, m);
    forall x | 0 <= x < k.cfg.tasks ensures SavedSame(k, k', h.held[x]) {
      forall i | i in h.held[x] ensures Saved(k', i) == Saved(k, i) {
        assert Owns(k, x, i);
      }
    }
    hide SavedSame, Owns, Holds;
    HoldsSized(k, h);
    HoldsSized(k', h');
  }

  // ---- Giving one back ----

  /** The running task gives `m` back and gets the priority saved with it. */
  ghost predicate Freed(k: Kernel, k': Kernel, m: nat) {
    && Shape(k) && Shape(k') && k'.cfg == k.cfg && k.run < k.cfg.tasks && !k.tcbs[k.run].st.unused
    && Owns(k, k.run, m) && k'.obj.muxes == k.obj.muxes[m := k.obj.muxes[m].(count := 0)]
    && k'.tcbs == k.tcbs[k.run := k.tcbs[k.run].(prio := k.obj.muxes[m].prio)]
  }

  lemma FreedMoves(k: Kernel, k': Kernel, h: Hist, m: nat)
    requires Holds(k, h) && Freed(k, k', m)
    ensures var h' := TakeBack(h, k.run, m);
            && Holds(k', h') && Popped(k, k', h, h', k.run, m)
            && forall x :: 0 <= x < k.cfg.tasks && x != k.run && !k'.tcbs[x].st.unused ==> Rests(k, k', h, h', x)
  {
    var h' := TakeBack(h, k.run, m);
    forall x, i: nat | 0 <= x < k.cfg.tasks ensures i in h'.held[x] <==> Owns(k', x, i) {
      assert i in h.held[x] <==> Owns(k, x, i);
    }
    assert m in h.held[k.run];
    DropNoDup(h.held[k.run], m);
    hide Owns, NoDup, Drop;
  }

  /** Giving back and handing over are one call. */
  lemma HandedMoves(k: Kernel, k1: Kernel, k2: Kernel, h: Hist, m: nat, t: Tid)
    requires Holds(k, h) && Freed(k, k1, m) && Given(k1, k2, t, m) && t != k.run && FinalRelease(k, MuxPost(m))
    ensures Moved(k, MuxPost(m), k2, h, Give(TakeBack(h, k.run, m), t, m))
  {
    var h1 := TakeBack(h, k.run, m);
    FreedMoves(k, k1, h, m);
    GivenMoves(k1, k2, h1, t, m);
    hide Freed, Given, Holds, Owns, Drop;
    HoldsSized(k, h);
    HoldsSized(k2, Give(h1, t, m));
  }

  lemma FreedIsMove(k: Kernel, k1: Kernel, h: Hist, m: nat)
    requires Holds(k, h) && Freed(k, k1, m) && FinalRelease(k, MuxPost(m))
    ensures Moved(k, MuxPost(m), k1, h, TakeBack(h, k.run, m))
  {
    FreedMoves(k, k1, h, m);
    hide Freed, Holds, Owns, Drop;
    HoldsSized(k, h);
  }

  lemma PostFrees(k: Kernel, m: nat)
    requires KernelOK(k) && FinalRelease(k, MuxPost(m))
    ensures Members(k, MuxList(m))
    ensures var x := k.obj.muxes[m];
            var k1 := Mutex.Restore(Mutex.SetMux(k, m, x.(count := 0)), x);
            var l := At(k.lists, MuxList(m));
            && Freed(k, k1, m) && SchedOK(k1) && Runnable(k1) && k1.run == k.run && At(k1.lists, MuxList(m)) == l
            && (l == [] ==> Mutex.Post(k, m) == Out(k1, Ok, false))
            && (l != [] ==> l[0] < |k1.tcbs| && Mutex.Post(k, m) == Out(Mutex.HandOff(k1, m, l[0]), Ok, true))
  {
    QueueProofs.MembersOK(k);
    var x := k.obj.muxes[m];
    assert MuxOK(k, x, At(k.lists, MuxList(m)));
    assert TaskOK(k, k.run);
    RestoreOK(k, m);
    hide SchedOK, ObjectsOK, Mutex.Restore, Mutex.HandOff, FlagsOK, Placed;
    assert At(k.lists, MuxList(m)) != [] ==> At(k.lists, MuxList(m))[0] in At(k.lists, MuxList(m));
  }

  lemma HandOffGives(k: Kernel, m: nat, t: Tid)
    requires SchedOK(k) && m < |k.obj.muxes| && k.obj.muxes[m].count == 0 && t < k.cfg.tasks && k.tcbs[t].st.pend
    ensures Given(k, Mutex.HandOff(k, m, t), t, m)
  {
    var k1 := Mutex.SetMux(k, m, k.obj.muxes[m].(count := 1, owner := Some(t), prio := k.tcbs[t].prio));
    assert TaskOK(k, t);
    WakePrio(k1, t);
    WakeLife(k1, t);
    hide Wake;
  }

  lemma WakeLife(k: Kernel, t: Tid)
    requires t < |k.tcbs|
    ensures forall x :: 0 <= x < |k.tcbs| ==> Wake(k, t).tcbs[x].st.unused == k.tcbs[x].st.unused
  {
    hide Unlink;
  }

  lemma FreedCount(k: Kernel, k1: Kernel, m: nat)
    requires Freed(k, k1, m)
    ensures m < |k1.obj.muxes| && k1.obj.muxes[m].count == 0
  {
  }

  lemma ReleaseMoves(k: Kernel, h: Hist, m: nat)
    requires KernelOK(k) && Holds(k, h) && FinalRelease(k, MuxPost(m))
    ensures Members(k, MuxList(m))
    ensures Mutex.Post(k, m).ret == Ok
    ensures Moved(k, MuxPost(m), Mutex.Post(k, m).k, h, Record(k, MuxPost(m), Ok, h))
  {
    PostFrees(k, m);
    var x := k.obj.muxes[m];
    var k1 := Mutex.Restore(Mutex.SetMux(k, m, x.(count := 0)), x);
    var l := At(k.lists, MuxList(m));
    hide Freed, Given, KernelOK, SchedOK, Holds, Mutex.Post, Mutex.Restore, Mutex.HandOff, Moved, Runnable;
    HoldsSized(k, h);
    if l == [] {
      FreedIsMove(k, k1, h, m);
    } else {
      FreedCount(k, k1, m);
      WaitHead(k1, MuxList(m));
      HandOffGives(k1, m, l[0]);
      HandedMoves(k, k1, Mutex.HandOff(k1, m, l[0]), h, m, l[0]);
    }
  }

  lemma PostMoves(k: Kernel, h: Hist, m: nat)
    requires KernelOK(k) && Holds(k, h)
    ensures Members(k, MuxList(m))
    ensures var o := Mutex.Post(k, m); Moved(k, MuxPost(m), o.k, h, Record(k, MuxPost(m), o.ret, h))
  {
    QueueProofs.MembersOK(k);
    if FinalRelease(k, MuxPost(m)) {
      ReleaseMoves(k, h, m);
    } else {
      PostRests(k, h, m);
      RestIsMove(k, MuxPost(m), Mutex.Post(k, m).k, h);
    }
    hide KernelOK, Moved, Holds, Mutex.Post;
  }

  lemma PostRests(k: Kernel, h: Hist, m: nat)
    requires KernelOK(k) && Holds(k, h) && !FinalRelease(k, MuxPost(m)) && Members(k, MuxList(m))
    ensures var o := Mutex.Post(k, m); AllRest(k, o.k, h) && Record(k, MuxPost(m), o.ret, h) == h
  {
    var o := Mutex.Post(k, m);
    if o.ret == Ok {
      OneMux(k, o.k, h, m, k.obj.muxes[m].(count := k.obj.muxes[m].count - 1));
    } else {
      SameMuxTable(k, k, h);
    }
    hide SchedOK, ObjectsOK, AllRest, Holds;
  }

  // ---- Pending ----

  lemma MuxPendCases(k: Kernel, m: nat, timeout: nat, inInt: bool)
    requires Defined(k)
    ensures var o := Mutex.Pend(k, m, timeout, inInt);
            || (o.k == k && o.ret.Fail?)
            || (m < |k.obj.muxes| && o.ret == Ok && k.obj.muxes[m].count == 0
                && o.k == Mutex.SetMux(k, m,
                                       k.obj.muxes[m].(count := 1, owner := Some(k.run), prio := k.tcbs[k.run].prio)))
            || (m < |k.obj.muxes| && o.ret == Ok && k.obj.muxes[m].count > 0
                && o.k == Mutex.SetMux(k, m, k.obj.muxes[m].(count := k.obj.muxes[m].count + 1)))
            || (m < |k.obj.muxes| && o.ret == Waiting && k.obj.muxes[m].count > 0 && k.obj.muxes[m].owner.Some?
                && k.obj.muxes[m].owner.value < |k.tcbs|
                && o.k == Wait(Mutex.Boost(k, k.obj.muxes[m].owner.value), MuxCall(m), timeout))
  {
    hide Wait, Mutex.Boost;
  }

  lemma TakeMoves(k: Kernel, op: Op, k': Kernel, h: Hist, m: nat)
    requires Holds(k, h) && Given(k, k', k.run, m) && !FinalRelease(k, op)
    ensures Moved(k, op, k', h, Give(h, k.run, m))
  {
    GivenMoves(k, k', h, k.run, m);
    hide Given, Holds, Owns;
    HoldsSized(k, h);
    HoldsSized(k', Give(h, k.run, m));
  }

  lemma TakesFree(k: Kernel, m: nat)
    requires KernelOK(k) && m < |k.obj.muxes| && k.obj.muxes[m].count == 0
    ensures Given(k, Mutex.SetMux(k, m, k.obj.muxes[m].(count := 1, owner := Some(k.run), prio := k.tcbs[k.run].prio)),
                  k.run, m)
  {
    hide ObjectsOK;
  }

  /** Boosting an owner only makes it more urgent. */
  lemma BoostMoves(k: Kernel, op: Op, h: Hist, owner: Tid, m: nat)
    requires KernelOK(k) && Holds(k, h) && owner < k.cfg.tasks && Owns(k, owner, m) && !FinalRelease(k, op)
    ensures Moved(k, op, Mutex.Boost(k, owner), h, h)
  {
    var k' := Mutex.Boost(k, owner);
    assert m in h.held[owner];
    if k.tcbs[owner].prio > k.tcbs[k.run].prio {
      ModifyPrioFrame(k, owner, k.tcbs[k.run].prio);
      hide ModifyPrio;
      RaisedMoves(k, op, k', h, owner);
    } else {
      SameMuxTable(k, k, h);
      RestIsMove(k, op, k, h);
    }
  }

  lemma RaisedMoves(k: Kernel, op: Op, k': Kernel, h: Hist, owner: Tid)
    requires Holds(k, h) && Shape(k') && k'.cfg == k.cfg && owner < k.cfg.tasks && h.held[owner] != []
    requires k'.obj.muxes == k.obj.muxes && k'.tcbs[owner].prio <= k.tcbs[owner].prio && !FinalRelease(k, op)
    requires k'.tcbs[owner].st == k.tcbs[owner].st
    requires forall x :: 0 <= x < k.cfg.tasks && x != owner ==> k'.tcbs[x] == k.tcbs[x]
    ensures Moved(k, op, k', h, h)
  {
    forall x, i: nat | 0 <= x < k.cfg.tasks ensures i in h.held[x] <==> Owns(k', x, i) {
      assert Owns(k', x, i) <==> Owns(k, x, i);
    }
    forall s ensures SavedSame(k, k', s) {
    }
    hide Owns, SavedSame, Pushed, Popped, Rebased;
  }

  lemma WaitRests(k: Kernel, h: Hist, call: Call, ticks: nat)
    requires Holds(k, h)
    ensures AllRest(k, Wait(k, call, ticks), h)
  {
    WaitPrio(k, call, ticks);
    SameMuxTable(k, Wait(k, call, ticks), h);
  }

  lemma PendMoves(k: Kernel, h: Hist, m: nat, timeout: nat, inInt: bool)
    requires KernelOK(k) && Holds(k, h)
    ensures Defined(k)
    ensures var o := Mutex.Pend(k, m, timeout, inInt);
            Moved(k, MuxPend(m, timeout), o.k, h, Record(k, MuxPend(m, timeout), o.ret, h))
  {
    KernelDefined(k);
    MuxPendCases(k, m, timeout, inInt);
    var op, o := MuxPend(m, timeout), Mutex.Pend(k, m, timeout, inInt);
    HoldsSized(k, h);
    RunInRange(k);
    hide Mutex.Pend, KernelOK, Defined, Holds, Moved, Given, AllRest, Wait, Mutex.Boost;
    if o.ret == Waiting {
      PendWaitMoves(k, h, m, timeout);
    } else if o.ret == Ok && k.obj.muxes[m].count == 0 {
      TakesFree(k, m);
      TakeMoves(k, op, o.k, h, m);
    } else if o.ret == Ok {
      OneMux(k, o.k, h, m, k.obj.muxes[m].(count := k.obj.muxes[m].count + 1));
      RestIsMove(k, op, o.k, h);
    } else {
      SameMuxTable(k, k, h);
      RestIsMove(k, op, k, h);
    }
  }

  lemma PendWaitMoves(k: Kernel, h: Hist, m: nat, timeout: nat)
    requires KernelOK(k) && Holds(k, h) && m < |k.obj.muxes| && k.obj.muxes[m].count > 0
    requires k.obj.muxes[m].owner.Some? && k.obj.muxes[m].owner.value < |k.tcbs|
    ensures Moved(k, MuxPend(m, timeout), Wait(Mutex.Boost(k, k.obj.muxes[m].owner.value), MuxCall(m), timeout), h, h)
  {
    var owner := k.obj.muxes[m].owner.value;
    assert MuxOK(k, k.obj.muxes[m], At(k.lists, MuxList(m)));
    BoostMoves(k, MuxPend(m, timeout), h, owner, m);
    var k1 := Mutex.Boost(k, owner);
    BoostOK(k, owner);
    hide KernelOK, Mutex.Boost, Wait, Quiet, Moves, Rests;
    WaitRests(k1, h, MuxCall(m), timeout);
    MovedOn(k, MuxPend(m, timeout), k1, Wait(k1, MuxCall(m), timeout), h, h);
  }

  // ---- Making and deleting mutexes ----

  lemma CreateMuxRests(k: Kernel, h: Hist)
    requires KernelOK(k) && Holds(k, h)
    ensures Defined(k) && AllRest(k, Mutex.Create(k).k, h)
  {
    KernelDefined(k);
    if k.obj.muxFree != [] {
      var m := k.obj.muxFree[0];
      assert m in k.obj.muxFree;
      assert MuxOK(k, k.obj.muxes[m], At(k.lists, MuxList(m)));
      OneMux(k, Mutex.Create(k).k, h, m, Mux(true, 0, None, 0));
    } else {
      SameMuxTable(k, k, h);
    }
    hide AllRest, Holds;
  }

  lemma DeleteMuxRests(k: Kernel, h: Hist, m: nat)
    requires KernelOK(k) && Holds(k, h)
    ensures AllRest(k, Mutex.Delete(k, m).k, h)
  {
    if Mutex.Delete(k, m).ret == Ok {
      OneMux(k, Mutex.Delete(k, m).k, h, m, k.obj.muxes[m].(used := false));
    } else {
      SameMuxTable(k, k, h);
    }
    hide AllRest, Holds;
  }

  lemma MuxMoves(k: Kernel, op: Op, inInt: bool, h: Hist)
    requires KernelOK(k) && Defined(k) && Holds(k, h) && ServiceOf(op) == OnMux
    ensures var o := DoMux(k, op, inInt); Moved(k, op, o.k, h, Record(k, op, o.ret, h))
  {
    hide KernelOK, Holds, Moved, AllRest, Mutex.Create, Mutex.Delete, Mutex.Pend, Mutex.Post;
    match op {
      case MuxCreate =>
        CreateMuxRests(k, h);
        RestIsMove(k, op, Mutex.Create(k).k, h);
      case MuxDelete(m) =>
        DeleteMuxRests(k, h, m);
        RestIsMove(k, op, Mutex.Delete(k, m).k, h);
      case MuxPend(m, timeout) => PendMoves(k, h, m, timeout, inInt);
      case MuxPost(m) => PostMoves(k, h, m);
    }
  }

  // ---- Task calls ----

  lemma UnusedHoldsNothing(k: Kernel, h: Hist, t: Tid)
    requires KernelOK(k) && Holds(k, h) && t < k.cfg.tasks && k.tcbs[t].st.unused
    ensures h.held[t] == []
  {
    forall m: nat ensures m !in h.held[t] {
      assert m in h.held[t] <==> Owns(k, t, m);
      assert m < |k.obj.muxes| ==> MuxOK(k, k.obj.muxes[m], At(k.lists, MuxList(m)));
    }
    NoElements(h.held[t]);
  }

  lemma NoElements(s: seq<nat>)
    ensures (forall m: nat :: m !in s) ==> s == []
  {
    if s != [] {
      assert s[0] in s;
    }
  }

  /** One task gets a new base priority, and has it. */
  lemma RebaseMoves(k: Kernel, op: Op, k': Kernel, h: Hist, t: Tid, prio: nat)
    requires Holds(k, h) && Shape(k') && k'.cfg == k.cfg && t < k.cfg.tasks && !FinalRelease(k, op)
    requires (op.TaskPriSet? && op.t == t) || h.held[t] == []
    requires k'.obj.muxes == k.obj.muxes && k'.tcbs[t].prio == prio
    requires forall x :: 0 <= x < k.cfg.tasks && x != t ==> k'.tcbs[x] == k.tcbs[x]
    ensures Moved(k, op, k', h, h.(base := h.base[t := prio]))
  {
    forall x, i: nat | 0 <= x < k.cfg.tasks ensures i in h.held[x] <==> Owns(k', x, i) {
      assert Owns(k', x, i) <==> Owns(k, x, i);
    }
    forall s ensures SavedSame(k, k', s) {
    }
    hide Owns, SavedSame, Pushed, Popped, Boosted;
  }

  lemma PriSetMoves(k: Kernel, h: Hist, t: nat, prio: nat)
    requires KernelOK(k) && Holds(k, h)
    ensures var o := Task.PriSet(k, t, prio);
            Moved(k, TaskPriSet(t, prio), o.k, h, Record(k, TaskPriSet(t, prio), o.ret, h))
  {
    var o := Task.PriSet(k, t, prio);
    if o.ret == Ok {
      ModifyPrioFrame(k, t, prio);
      hide ModifyPrio, Moved, Holds;
      HoldsSized(k, h);
      RebaseMoves(k, TaskPriSet(t, prio), o.k, h, t, prio);
    } else {
      SameMuxTable(k, k, h);
      RestIsMove(k, TaskPriSet(t, prio), k, h);
    }
  }

  lemma CreateMoves(k: Kernel, h: Hist, op: Op, inInt: bool)
    requires KernelOK(k) && Holds(k, h) && (op.TaskCreate? || op.TaskCreateOnly?)
    ensures Defined(k)
    ensures var o := DoTask(k, op, inInt); Moved(k, op, o.k, h, Record(k, op, o.ret, h))
  {
    hide *;
    KernelDefined(k);
    OnTaskOps(op);
    CreateLegal(k, op);
    TaskCallsKeepObjects(k, op, inInt);
    DoTaskOK(k, op, true);
    CreateSameInHandler(k, op, inInt);
    CreatedTask(k, op, inInt);
    var o := DoTask(k, op, inInt);
    CallShape(k, o);
    HoldsSizes(k, h);
    CreatesNoRelease(k, op);
    if o.ret.Id? {
      UnusedHoldsNothing(k, h, o.ret.id);
      NewBlock(k, o, op.prio);
      RebaseMoves(k, op, o.k, h, o.ret.id, op.prio);
    } else {
      SameBlocks(k, o, op.prio);
      SamePrio(k, o.k);
      SameMuxTable(k, o.k, h);
      RestIsMove(k, op, o.k, h);
    }
    CreateRecord(k, op, o, h);
  }

  lemma HoldsSizes(k: Kernel, h: Hist)
    requires Holds(k, h)
    ensures |h.base| == |h.held| == k.cfg.tasks < |k.tcbs| && Shape(k)
  {
  }

  lemma CreatesNoRelease(k: Kernel, op: Op)
    requires op.TaskCreate? || op.TaskCreateOnly?
    ensures !FinalRelease(k, op)
  {
  }

  lemma SamePrio(k: Kernel, k': Kernel)
    requires k'.tcbs == k.tcbs
    ensures PrioSame(k, k')
  {
  }

  lemma CreateLegal(k: Kernel, op: Op)
    requires KernelOK(k) && (op.TaskCreate? || op.TaskCreateOnly?)
    ensures Shape(k) && OpLegal(k, op, true) && SchedOK(k)
  {
  }

  lemma CallShape(k: Kernel, o: Out)
    requires CallOK(k, o)
    ensures Shape(o.k)
  {
  }

  lemma NewBlock(k: Kernel, o: Out, prio: nat)
    requires OneBlock(k, o, prio) && o.ret.Id? && k.cfg.tasks < |k.tcbs|
    ensures o.k.cfg == k.cfg && o.ret.id < |o.k.tcbs| && o.k.tcbs[o.ret.id].prio == prio
    ensures |o.k.tcbs| == |k.tcbs| && forall x :: 0 <= x < k.cfg.tasks && x != o.ret.id ==> o.k.tcbs[x] == k.tcbs[x]
  {
  }

  lemma SameBlocks(k: Kernel, o: Out, prio: nat)
    requires OneBlock(k, o, prio) && !o.ret.Id?
    ensures o.k.cfg == k.cfg && o.k.tcbs == k.tcbs
  {
  }

  lemma CreateRecord(k: Kernel, op: Op, o: Out, h: Hist)
    requires op.TaskCreate? || op.TaskCreateOnly?
    ensures Record(k, op, o.ret, h) ==
            if o.ret.Id? && o.ret.id < |h.base| then h.(base := h.base[o.ret.id := op.prio]) else h
  {
  }

  lemma CreateSameInHandler(k: Kernel, op: Op, inInt: bool)
    requires Defined(k) && (op.TaskCreate? || op.TaskCreateOnly?)
    ensures DoTask(k, op, inInt) == DoTask(k, op, true)
  {
  }

  lemma CreateFacts(k: Kernel, prio: nat, memory: bool)
    requires KernelOK(k)
    ensures Defined(k)
    ensures var o := Task.CreateOnly(k, prio, memory);
            (o.ret.Id? ==> o.ret.id < k.cfg.tasks && o.ret.id < |k.tcbs| && k.tcbs[o.ret.id].st.unused)
  {
    KernelDefined(k);
    CreateOnlyOK(k, prio, memory);
  }

  lemma CreatedTask(k: Kernel, op: Op, inInt: bool)
    requires KernelOK(k) && Defined(k) && (op.TaskCreate? || op.TaskCreateOnly?)
    ensures var o := DoTask(k, op, inInt);
            && OneBlock(k, o, op.prio)
            && (o.ret.Id? ==> o.ret.id < k.cfg.tasks && o.ret.id < |k.tcbs| && k.tcbs[o.ret.id].st.unused)
  {
    hide *;
    CreateFacts(k, op.prio, op.memory);
    OnTaskOps(op);
    DoTaskIs(k, op, inInt);
    OneNewBlock(k, op.prio, op.memory);
  }

  // ---- Calls, steps ----

  lemma NoBirth(k: Kernel, op: Op, inInt: bool, t: Tid)
    requires KernelOK(k) && OpLegal(k, op, inInt) && t < k.cfg.tasks && !op.TaskCreate? && !op.TaskCreateOnly?
    requires !inInt ==> (op.Finish? <==> !k.tcbs[k.run].call.NoCall?)
    ensures Defined(k)
    ensures var k' := Do(k, op, inInt).k;
            |k'.tcbs| == |k.tcbs| && (!k'.tcbs[t].st.unused ==> !k.tcbs[t].st.unused)
  {
    Outcomes.DoFates(k, op, inInt);
    assert Fates.Fate(op, k, Do(k, op, inInt).k, t);
    hide Do;
    assert TaskOK(k, k.run) && TaskOK(k, t);
  }

  lemma MuxTableKept(k: Kernel, op: Op, inInt: bool)
    requires Defined(k) && ServiceOf(op) != OnMux
    ensures Do(k, op, inInt).k.obj.muxes == k.obj.muxes
  {
    hide DoTask, DoSem, DoMux, DoEvent, DoQueue, Defined;
    match ServiceOf(op) {
      case OnTask =>
        if op.Finish? {
          FinishIsTask(k, op, inInt);
          FinishKeeps(k);
        } else {
          TaskCallsKeepObjects(k, op, inInt);
        }
      case OnSem => SemCallsKeep(k, op, inInt);
      case OnEvent => EventCallsKeep(k, op, inInt);
      case OnQueue => QueueCallsKeep(k, op, inInt);
    }
  }

  lemma PlainRests(k: Kernel, op: Op, inInt: bool, h: Hist)
    requires KernelOK(k) && Holds(k, h) && OpLegal(k, op, inInt) && !Reprioritizes(op) && ServiceOf(op) != OnMux
    requires !inInt ==> (op.Finish? <==> !k.tcbs[k.run].call.NoCall?)
    ensures Defined(k)
    ensures AllRest(k, Do(k, op, inInt).k, h)
  {
    KernelDefined(k);
    DoOK(k, op, inInt);
    DoPrio(k, op, inInt);
    MuxTableKept(k, op, inInt);
    var k' := Do(k, op, inInt).k;
    forall t | 0 <= t < k.cfg.tasks && !k'.tcbs[t].st.unused ensures !k.tcbs[t].st.unused {
      NoBirth(k, op, inInt, t);
    }
    hide Do, AllRest;
    SameMuxTable(k, k', h);
  }

  lemma DoMoves(k: Kernel, op: Op, inInt: bool, h: Hist)
    requires KernelOK(k) && Holds(k, h) && OpLegal(k, op, inInt)
    requires !inInt ==> (op.Finish? <==> !k.tcbs[k.run].call.NoCall?)
    ensures Defined(k)
    ensures var o := Do(k, op, inInt); Moved(k, op, o.k, h, Record(k, op, o.ret, h))
  {
    hide *;
    KernelDefined(k);
    DoIs(k, op, inInt);
    ReprioritizingOps(op);
    TaskOpLegal(k, op, inInt);
    if ServiceOf(op) == OnMux {
      MuxMoves(k, op, inInt, h);
    } else if !Reprioritizes(op) {
      PlainRests(k, op, inInt, h);
      PlainRecord(k, op, Do(k, op, inInt).ret, h);
      RestIsMove(k, op, Do(k, op, inInt).k, h);
    } else if op.TaskPriSet? {
      OnTaskOps(op);
      DoTaskIs(k, op, inInt);
      PriSetMoves(k, h, op.t, op.prio);
    } else {
      CreateMoves(k, h, op, inInt);
    }
  }

  lemma ReprioritizingOps(op: Op)
    ensures Reprioritizes(op) && ServiceOf(op) != OnMux ==>
              ServiceOf(op) == OnTask && (op.TaskCreate? || op.TaskCreateOnly? || op.TaskPriSet?)
  {
  }

  lemma PlainRecord(k: Kernel, op: Op, ret: Ret, h: Hist)
    requires !Reprioritizes(op)
    ensures Record(k, op, ret, h) == h && !FinalRelease(k, op)
  {
  }

  lemma SwitchRests(k: Kernel, h: Hist, now: nat)
    requires SchedOK(k) && Switchable(k) && k.now <= now && Holds(k, h)
    ensures Top(Park(ChargeSlice(k, now))) < |k.tcbs|
    ensures AllRest(k, Switch(k, now), h)
  {
    SwitchOK(k, now);
    SwitchPrio(k, now);
    SameMuxTable(k, Switch(k, now), h);
  }

  ghost function StepRecord(k: Kernel, step: Step, h: Hist): Hist
    requires KernelOK(k) && Legal(k, step)
  {
    KernelDefined(k);
    if IsOp(step) then Record(k, OpOf(step), Do(k, OpOf(step), step.Interrupt?).ret, h) else h
  }

  /** What a step makes of the stacks; `Yield` stands for a pended switch, in which nothing happens to them. */
  function OpOrNone(step: Step): Op {
    if IsOp(step) then OpOf(step) else TaskYield
  }

  lemma StepMoves(k: Kernel, step: Step, h: Hist)
    requires KernelOK(k) && Legal(k, step) && Holds(k, h)
    ensures Moved(k, OpOrNone(step), Next(k, step), h, StepRecord(k, step, h))
  {
    hide Moved, AllRest, Holds, Switch, SchedOK, ObjectsOK, Switchable, Do, Defined, Legal, Record;
    KernelShape(k);
    match step {
      case Call(op, now) => CallMoves(k, op, now, h);
      case Interrupt(op) =>
        HandlerLegal(k, op);
        DoMoves(k, op, true, h);
      case PendSV(now) => PendSVMoves(k, now, h);
    }
  }

  lemma HandlerLegal(k: Kernel, op: Op)
    requires Shape(k) && Legal(k, Interrupt(op))
    ensures OpLegal(k, op, true)
  {
  }

  lemma CallLegal(k: Kernel, op: Op, now: nat)
    requires Shape(k) && Legal(k, Call(op, now))
    ensures OpLegal(k, op, false) && (op.Finish? <==> !k.tcbs[k.run].call.NoCall?)
  {
  }

  lemma PendSVMoves(k: Kernel, now: nat, h: Hist)
    requires KernelOK(k) && Legal(k, PendSV(now)) && Holds(k, h)
    ensures Moved(k, TaskYield, Next(k, PendSV(now)), h, h)
  {
    hide Moved, AllRest, Holds, Switch, SchedOK, ObjectsOK, Switchable;
    KernelShape(k);
    SettledSwitchable(k);
    SwitchRests(k, h, now);
    RestIsMove(k, TaskYield, Switch(k, now), h);
  }

  lemma StepRecordIs(k: Kernel, op: Op, now: nat, h: Hist)
    requires KernelOK(k) && Legal(k, Call(op, now)) && Defined(k)
    ensures StepRecord(k, Call(op, now), h) == Record(k, op, Do(k, op, false).ret, h)
  {
    hide Do, Record, KernelOK, Defined, Legal;
  }

  lemma CallMoves(k: Kernel, op: Op, now: nat, h: Hist)
    requires KernelOK(k) && Legal(k, Call(op, now)) && Holds(k, h)
    ensures Moved(k, op, Next(k, Call(op, now)), h, StepRecord(k, Call(op, now), h))
  {
    hide *;
    KernelShape(k);
    CallLegal(k, op, now);
    DoMoves(k, op, false, h);
    NextCallIs(k, op, now);
    StepRecordIs(k, op, now, h);
    var o := Do(k, op, false);
    var h1 := Record(k, op, o.ret, h);
    if o.sched && o.k.lock == 0 {
      MovedHolds(k, op, o.k, h, h1);
      SwitchRests(o.k, h1, now);
      if FinalRelease(k, op) {
        ReleaserLives(k, op, now, h, o);
      }
      MovedOn(k, op, o.k, Switch(o.k, now), h, h1);
    }
  }

  /** Who releases a mutex is still alive after the switch that the hand-over asks for. */
  lemma ReleaserLives(k: Kernel, op: Op, now: nat, h: Hist, o: Out)
    requires KernelOK(k) && Legal(k, Call(op, now)) && Holds(k, h) && FinalRelease(k, op)
    requires Defined(k) && o == Do(k, op, false) && SchedOK(o.k) && Switchable(o.k) && o.k.now <= now && Shape(o.k)
    ensures Top(Park(ChargeSlice(o.k, now))) < |o.k.tcbs|
    ensures k.run < |Switch(o.k, now).tcbs| && !Switch(o.k, now).tcbs[k.run].st.unused
  {
    hide *;
    KernelShape(k);
    ReleaseAnswers(k, op, h);
    CallLegal(k, op, now);
    DoOK(k, op, false);
    AnswerRuns(k, op, o);
    SwitchOK(o.k, now);
    QuietLife(o.k, Switch(o.k, now), k.run);
  }

  lemma ReleaseAnswers(k: Kernel, op: Op, h: Hist)
    requires KernelOK(k) && Holds(k, h) && FinalRelease(k, op) && Defined(k)
    ensures op.MuxPost? && Do(k, op, false).ret == Ok
  {
    hide KernelOK, Moved, Mutex.Post, Defined;
    DoIs(k, op, false);
    ReleaseMoves(k, h, op.mux);
  }

  lemma AnswerRuns(k: Kernel, op: Op, o: Out)
    requires op.MuxPost? && o.ret == Ok && CallOK(k, o)
    ensures k.run < |o.k.tcbs| && !o.k.tcbs[k.run].st.unused
  {
  }

  lemma QuietLife(k: Kernel, k': Kernel, t: Tid)
    requires t < |k.tcbs| && SchedProofs.Quiet(k, k')
    ensures t < |k'.tcbs| && k'.tcbs[t].st.unused == k.tcbs[t].st.unused
  {
    assert SchedProofs.SameCall(k.tcbs[t], k'.tcbs[t]);
  }

  lemma MovedHolds(k: Kernel, op: Op, k': Kernel, h: Hist, h': Hist)
    requires Moved(k, op, k', h, h')
    ensures Holds(k', h')
  {
  }

  ghost function RunRecord(k: Kernel, steps: seq<Step>, h: Hist): Hist
    requires KernelOK(k) && LegalRun(k, steps)
    decreases |steps|
  {
    if steps == [] then h else RunRecord(Next(k, steps[0]), steps[1..], StepRecord(k, steps[0], h))
  }
}
