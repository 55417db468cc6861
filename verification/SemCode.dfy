/** The semaphore calls on the kernel's globals. */
module SemCode {
  import opened KernelState
  import opened Sched
  import opened TaskProofs
  import opened KernelObjects
  import opened SchedCode
  import opened ObjectFacts
  import Semaphore

  lemma SemFreeOK(k: Kernel)
    requires Sound(k)
    ensures forall s :: s in k.obj.semFree ==> s < |k.obj.sems|
  {
  }

  lemma HasSem(g: Globals, s: nat)
    ensures s < g.sems.Length ==> g.HasList(SemList(s))
  {
  }

  /** OsSemCreate */
  method SemCreate(g: Globals, count: nat, maxCount: nat) returns (ret: Ret, sched: bool)
    requires g.Valid() && Sound(g.abs) == true
    modifies g.Parts()
    ensures g.Valid() && (forall s :: s in old(g.abs).obj.semFree ==> s < |old(g.abs).obj.sems|)
    ensures Out(g.abs, ret, sched) == Semaphore.Create(old(g.abs), count, maxCount)
  {
    hide Globals.Valid, Globals.Parts, Sound;
    SemFreeOK(g.abs);
    g.ObjectAt();
    if count > maxCount {
      return Fail(SemOverflow), false;
    }
    if g.freeSems == [] {
      return Fail(SemAllBusy), false;
    }
    var s := g.freeSems[0];
    assert s in g.freeSems;
    g.StoreFree(g.freeSems[1..], g.freeMuxes, g.freeQueues);
    g.StoreSem(s, Sem(true, count, maxCount));
    return Id(s), false;
  }

  /** LOS_SemDelete */
  method SemDelete(g: Globals, semHandle: nat) returns (ret: Ret, sched: bool)
    requires g.Valid()
    modifies g.Parts()
    ensures g.Valid() && Out(g.abs, ret, sched) == Semaphore.Delete(old(g.abs), semHandle)
  {
    hide Globals.Valid, Globals.Parts;
    g.ObjectAt();
    if semHandle >= g.sems.Length {
      return Fail(SemInvalid), false;
    }
    if !g.sems[semHandle].used {
      return Fail(SemInvalid), false;
    }
    HasSem(g, semHandle);
    var empty := g.ListEmpty(SemList(semHandle));
    if !empty {
      return Fail(SemPended), false;
    }
    g.StoreFree([semHandle] + g.freeSems, g.freeMuxes, g.freeQueues);
    g.ObjectAt();
    g.StoreSem(semHandle, g.sems[semHandle].(used := false));
    return Ok, false;
  }

  /** LOS_SemPend up to the switch; a task that is made to wait goes on in `Finish`. */
  method SemPend(g: Globals, semHandle: nat, timeout: nat, inInt: bool) returns (ret: Ret, sched: bool)
    requires g.Valid() && KernelOK(g.abs) == true
    modifies g.Parts()
    ensures g.Valid() && old(g.abs).run < |old(g.abs).tcbs|
    ensures Out(g.abs, ret, sched) == Semaphore.Pend(old(g.abs), semHandle, timeout, inInt)
  {
    hide Globals.Valid, Globals.Parts, KernelOK, Wait, Nowhere;
    RunFree(g.abs);
    g.RunAt();
    g.ObjectAt();
    if semHandle >= g.sems.Length {
      return Fail(SemInvalid), false;
    }
    if !g.sems[semHandle].used {
      return Fail(SemInvalid), false;
    }
    if inInt {
      return Fail(SemPendInInterrupt), false;
    }
    if g.taskLock != 0 {
      return Fail(SemPendInLock), false;
    }
    if g.sems[semHandle].count > 0 {
      g.StoreSem(semHandle, g.sems[semHandle].(count := g.sems[semHandle].count - 1));
      return Ok, false;
    }
    if timeout == 0 {
      return Fail(SemUnavailable), false;
    }
    HasSem(g, semHandle);
    SchedTaskWait(g, SemCall(semHandle), timeout);
    return Waiting, true;
  }

  /** LOS_SemPost */
  method SemPost(g: Globals, semHandle: nat) returns (ret: Ret, sched: bool)
    requires g.Valid() && KernelOK(g.abs) == true
    modifies g.Parts()
    ensures g.Valid() && Members(old(g.abs), SemList(semHandle))
    ensures Out(g.abs, ret, sched) == Semaphore.Post(old(g.abs), semHandle)
  {
    hide Globals.Valid, Globals.Parts, KernelOK, Wake, Wakeable;
    FirstWaiter(g.abs, SemList(semHandle));
    g.RunAt();
    g.ObjectAt();
    if semHandle >= g.sems.Length {
      return Fail(SemInvalid), false;
    }
    if !g.sems[semHandle].used {
      return Fail(SemInvalid), false;
    }
    if g.sems[semHandle].max == g.sems[semHandle].count {
      return Fail(SemOverflow), false;
    }
    HasSem(g, semHandle);
    var empty := g.ListEmpty(SemList(semHandle));
    if !empty {
      var resumedTask := g.ListFirst(SemList(semHandle));
      WakeableFacts(g.abs, resumedTask);
      SchedTaskWake(g, resumedTask);
      return Ok, true;
    }
    g.ObjectAt();
    g.StoreSem(semHandle, g.sems[semHandle].(count := g.sems[semHandle].count + 1));
    return Ok, false;
  }
}
