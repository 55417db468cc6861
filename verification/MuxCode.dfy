/** The mutex calls on the kernel's globals, with the owner's priority raised and restored in place. */
module MuxCode {
  import opened Sequences
  import opened KernelState
  import opened Sched
  import opened SchedProofs
  import opened Invariants
  import opened TaskProofs
  import opened KernelObjects
  import opened SchedCode
  import opened SwitchCode
  import opened ObjectFacts
  import Mutex

  lemma MuxFreeOK(k: Kernel)
    requires Sound(k)
    ensures forall m :: m in k.obj.muxFree ==> m < |k.obj.muxes|
  {
  }

  lemma HasMux(g: Globals, m: nat)
    ensures m < g.muxes.Length ==> g.HasList(MuxList(m))
  {
  }

  /** LOS_MuxCreate */
  method MuxCreate(g: Globals) returns (ret: Ret, sched: bool)
    requires g.Valid() && Sound(g.abs) == true
    modifies g.Parts()
    ensures g.Valid() && (forall m :: m in old(g.abs).obj.muxFree ==> m < |old(g.abs).obj.muxes|)
    ensures Out(g.abs, ret, sched) == Mutex.Create(old(g.abs))
  {
    hide Globals.Valid, Globals.Parts, Sound;
    MuxFreeOK(g.abs);
    g.ObjectAt();
    if g.freeMuxes == [] {
      return Fail(MuxAllBusy), false;
    }
    var m := g.freeMuxes[0];
    assert m in g.freeMuxes;
    g.StoreFree(g.freeSems, g.freeMuxes[1..], g.freeQueues);
    g.StoreMux(m, Mux(true, 0, None, 0));
    return Id(m), false;
  }

  /** LOS_MuxDelete */
  method MuxDelete(g: Globals, muxHandle: nat) returns (ret: Ret, sched: bool)
    requires g.Valid()
    modifies g.Parts()
    ensures g.Valid() && Out(g.abs, ret, sched) == Mutex.Delete(old(g.abs), muxHandle)
  {
    hide Globals.Valid, Globals.Parts;
    g.ObjectAt();
    if muxHandle >= g.muxes.Length {
      return Fail(MuxInvalid), false;
    }
    if !g.muxes[muxHandle].used {
      return Fail(MuxInvalid), false;
    }
    HasMux(g, muxHandle);
    var empty := g.ListEmpty(MuxList(muxHandle));
    if !empty || g.muxes[muxHandle].count != 0 {
      return Fail(MuxPended), false;
    }
    g.StoreFree(g.freeSems, [muxHandle] + g.freeMuxes, g.freeQueues);
    g.ObjectAt();
    g.StoreMux(muxHandle, g.muxes[muxHandle].(used := false));
    return Ok, false;
  }

  /** The owner of a held mutex is a live task. */
  lemma OwnerFacts(k: Kernel)
    requires KernelOK(k)
    ensures forall i :: 0 <= i < |k.obj.muxes| && k.obj.muxes[i].count > 0 ==>
              k.obj.muxes[i].owner.Some? && k.obj.muxes[i].owner.value < |k.tcbs|
  {
    forall i | 0 <= i < |k.obj.muxes| && k.obj.muxes[i].count > 0
      ensures k.obj.muxes[i].owner.Some? && k.obj.muxes[i].owner.value < |k.tcbs|
    {
      assert MuxOK(k, k.obj.muxes[i], At(k.lists, MuxList(i)));
    }
  }

  lemma OwnerHomed(k: Kernel, m: nat)
    requires KernelOK(k) && m < |k.obj.muxes| && k.obj.muxes[m].count > 0
    ensures var x := k.obj.muxes[m];
            && x.owner.Some? && x.owner.value < k.cfg.tasks && x.owner.value < |k.tcbs| && Homed(k, x.owner.value)
               && x.prio <= LOWEST
    ensures k.run < |k.tcbs| && k.tcbs[k.run].prio <= LOWEST
  {
    assert MuxOK(k, k.obj.muxes[m], At(k.lists, MuxList(m)));
    HomedNow(k, k.obj.muxes[m].owner.value);
    RunFree(k);
    assert TaskOK(k, k.run);
  }

  /** The boosted owner is not the running task, whose place does not change. */
  lemma BoostFrame(k: Kernel, t: Tid, prio: nat)
    requires KernelOK(k) && t < k.cfg.tasks && t != k.run && t < |k.tcbs| && prio <= LOWEST
    ensures var k' := ModifyPrio(k, t, prio); k'.run == k.run && k'.cfg == k.cfg && Nowhere(k'.lists, k.run)
  {
    RunFree(k);
    BoostSched(k, t, prio);
    HomedNow(ModifyPrio(k, t, prio), k.run);
    hide ModifyPrio, SchedOK, Nowhere;
  }

  lemma BoostSched(k: Kernel, t: Tid, prio: nat)
    requires KernelOK(k) && t < k.cfg.tasks && t != k.run && t < |k.tcbs| && prio <= LOWEST
    ensures var k' := ModifyPrio(k, t, prio);
            && SchedOK(k') && k'.run == k.run && k'.cfg == k.cfg && k.run < k.cfg.tasks && |k'.tcbs| == |k.tcbs|
            && k'.tcbs[k.run] == k.tcbs[k.run]
            && var f := k.tcbs[k.run].st; !f.unused && !f.pend && !f.ready
  {
    ModifyPrioOK(k, t, prio);
    ModifyPrioFrame(k, t, prio);
    hide ModifyPrio;
  }

  /** LOS_MuxPend up to the switch; a task that is made to wait goes on in `Finish`. */
  method MuxPend(g: Globals, muxHandle: nat, timeout: nat, inInt: bool) returns (ret: Ret, sched: bool)
    requires g.Valid() && KernelOK(g.abs) == true
    modifies g.Parts()
    ensures g.Valid() && Pendable(old(g.abs))
    ensures Out(g.abs, ret, sched) == Mutex.Pend(old(g.abs), muxHandle, timeout, inInt)
  {
    hide Globals.Valid, Globals.Parts, KernelOK, Wait, ModifyPrio, Homed, Nowhere;
    OwnerFacts(g.abs);
    RunFree(g.abs);
    g.RunAt();
    g.ObjectAt();
    if muxHandle >= g.muxes.Length {
      return Fail(MuxInvalid), false;
    }
    if !g.muxes[muxHandle].used {
      return Fail(MuxInvalid), false;
    }
    if inInt {
      return Fail(MuxPendInInterrupt), false;
    }
    if g.taskLock != 0 {
      return Fail(MuxPendInLock), false;
    }
    var runTask := g.runTask.taskID;
    g.TaskAt(runTask);
    var mux := g.muxes[muxHandle];
    if mux.count == 0 {
      g.StoreMux(muxHandle, mux.(count := mux.count + 1, owner := Some(runTask), prio := g.tasks[runTask].priority));
      return Ok, false;
    }
    if mux.owner.value == runTask {
      g.StoreMux(muxHandle, mux.(count := mux.count + 1));
      return Ok, false;
    }
    if timeout == 0 {
      return Fail(MuxUnavailable), false;
    }
    OwnerHomed(g.abs, muxHandle);
    WaitForOwner(g, muxHandle, timeout);
    return Waiting, true;
  }

  ghost predicate Pendable(k: Kernel) {
    && k.run < |k.tcbs|
    && forall i :: 0 <= i < |k.obj.muxes| && k.obj.muxes[i].count > 0 ==>
         k.obj.muxes[i].owner.Some? && k.obj.muxes[i].owner.value < |k.tcbs|
  }

  /** The boost of the owner, and the wait. */
  method WaitForOwner(g: Globals, m: nat, timeout: nat)
    requires g.Valid() && KernelOK(g.abs) == true && m < g.muxes.Length && m < |g.abs.obj.muxes|
    requires g.abs.obj.muxes[m].count > 0 && g.abs.obj.muxes[m].owner != Some(g.abs.run)
    modifies g.Parts()
    ensures g.Valid()
    ensures var k := old(g.abs);
            && k.run < |k.tcbs| && k.obj.muxes[m].owner.Some? && k.obj.muxes[m].owner.value < |k.tcbs|
            && g.abs == Wait(Mutex.Boost(k, k.obj.muxes[m].owner.value), MuxCall(m), timeout)
  {
    hide Globals.Valid, Globals.Parts, KernelOK, Wait, ModifyPrio, Homed, Nowhere;
    ghost var k := g.abs;
    RunFree(k);
    OwnerHomed(k, m);
    g.RunAt();
    g.ObjectAt();
    var runTask, owner := g.runTask.taskID, g.muxes[m].owner.value;
    g.TaskAt(runTask);
    g.TaskAt(owner);
    BoostFrame(k, owner, k.tcbs[k.run].prio);
    if g.tasks[owner].priority > g.tasks[runTask].priority {
      var _ := SchedModifyTaskSchedParam(g, owner, g.tasks[runTask].priority);
    }
    HasMux(g, m);
    SchedTaskWait(g, MuxCall(m), timeout);
  }

  /** LOS_MuxPost */
  method MuxPost(g: Globals, muxHandle: nat) returns (ret: Ret, sched: bool)
    requires g.Valid() && KernelOK(g.abs) == true
    modifies g.Parts()
    ensures g.Valid() && Members(old(g.abs), MuxList(muxHandle)) && old(g.abs).run < |old(g.abs).tcbs|
    ensures Out(g.abs, ret, sched) == Mutex.Post(old(g.abs), muxHandle)
  {
    hide Globals.Valid, Globals.Parts, KernelOK, Wake, ModifyPrio, Wakeable, Homed, Nowhere, Mutex.Restore,
        Mutex.HandOff;
    ghost var k := g.abs;
    FirstWaiter(k, MuxList(muxHandle));
    RunFree(k);
    g.RunAt();
    g.ObjectAt();
    if muxHandle >= g.muxes.Length {
      return Fail(MuxInvalid), false;
    }
    if !g.muxes[muxHandle].used {
      return Fail(MuxInvalid), false;
    }
    var mux := g.muxes[muxHandle];
    if mux.count == 0 || mux.owner != Some(g.runTask.taskID) {
      return Fail(MuxInvalid), false;
    }
    OwnerHomed(k, muxHandle);
    g.StoreMux(muxHandle, mux.(count := mux.count - 1));
    if mux.count - 1 != 0 {
      return Ok, false;
    }
    ReleaseFrame(k, muxHandle);
    RestorePriority(g, muxHandle, mux);
    HasMux(g, muxHandle);
    var empty := g.ListEmpty(MuxList(muxHandle));
    if empty {
      return Ok, false;
    }
    var resumedTask := g.ListFirst(MuxList(muxHandle));
    HandOver(g, muxHandle, resumedTask);
    return Ok, true;
  }

  lemma ReleaseFrame(k: Kernel, m: nat)
    requires KernelOK(k) && m < |k.obj.muxes| && k.obj.muxes[m].count == 1 && k.obj.muxes[m].owner == Some(k.run)
    ensures k.run < |k.tcbs|
    ensures var x := k.obj.muxes[m];
            var k1 := Mutex.SetMux(k, m, x.(count := 0));
            var k2 := Mutex.Restore(k1, x);
            && PutMux(k, m, x.(count := x.count - 1)) == k1
            && Homed(k1, k.run) && k1.run == k.run && k.run < k.cfg.tasks && |k1.tcbs| == |k.tcbs| && x.prio <= LOWEST
            && k2.cfg == k.cfg && k2.obj == k1.obj && |k2.tcbs| == |k.tcbs|
            && At(k2.lists, MuxList(m)) == At(k.lists, MuxList(m))
            && (At(k.lists, MuxList(m)) != [] ==> Wakeable(k2, At(k.lists, MuxList(m))[0]))
  {
    RunFree(k);
    OwnerHomed(k, m);
    FirstWaiter(k, MuxList(m));
    assert TaskOK(k, k.run);
    var l := At(k.lists, MuxList(m));
    if l != [] {
      assert MuxOK(k, k.obj.muxes[m], l);
      assert l[0] in l;
      assert l[0] != k.run;
    }
  }

  /** The releasing task goes back to the priority it had when it took the mutex. */
  method RestorePriority(g: Globals, m: nat, ghost x: Mux)
    requires g.Valid() && m < g.muxes.Length && m < |g.abs.obj.muxes| && g.abs.run < g.cfg.tasks
             && Homed(g.abs, g.abs.run)
    requires g.abs.obj.muxes[m].prio == x.prio <= LOWEST
    modifies g.Parts()
    ensures g.Valid() && old(g.abs).run < |old(g.abs).tcbs|
    ensures g.abs == Mutex.Restore(old(g.abs), x)
  {
    hide Globals.Valid, Globals.Parts, ModifyPrio, Homed;
    g.RunAt();
    g.ObjectAt();
    var t := g.runTask.taskID;
    g.TaskAt(t);
    if g.tasks[t].priority != g.muxes[m].prio {
      var _ := SchedModifyTaskSchedParam(g, t, g.muxes[m].prio);
    }
  }

  /** The longest waiting task becomes the owner. */
  method HandOver(g: Globals, m: nat, t: Tid)
    requires g.Valid() && m < g.muxes.Length && Wakeable(g.abs, t) == true
    modifies g.Parts()
    ensures g.Valid() && m < |old(g.abs).obj.muxes| && t < |old(g.abs).tcbs| && g.abs == Mutex.HandOff(old(g.abs), m, t)
  {
    hide Globals.Valid, Globals.Parts, Wake, Wakeable, Homed;
    ghost var k := g.abs;
    WakeableFacts(k, t);
    g.RunAt();
    g.ObjectAt();
    g.TaskAt(t);
    g.StoreMux(m, g.muxes[m].(count := 1, owner := Some(t), prio := g.tasks[t].priority));
    StillWakeable(k, g.abs, t);
    WakeableFacts(g.abs, t);
    SchedTaskWake(g, t);
  }
}
