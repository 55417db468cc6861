/** kernel/src/los_sem.c */
module Semaphore {
  import opened KernelState
  import opened Sched

  function SetSem(k: Kernel, s: nat, x: Sem): Kernel
    requires s < |k.obj.sems|
  {
    k.(obj := k.obj.(sems := k.obj.sems[s := x]))
  }

  function Create(k: Kernel, count: nat, max: nat): Out
    requires forall s :: s in k.obj.semFree ==> s < |k.obj.sems|
  {
    if count > max then Out(k, Fail(SemOverflow), false)
    else if k.obj.semFree == [] then Out(k, Fail(SemAllBusy), false)
    else
      var s := k.obj.semFree[0];
      assert s in k.obj.semFree;
      Out(SetSem(k.(obj := k.obj.(semFree := k.obj.semFree[1..])), s, Sem(true, count, max)), Id(s), false)
  }

  function Delete(k: Kernel, s: nat): Out {
    if s >= |k.obj.sems| || !k.obj.sems[s].used then Out(k, Fail(SemInvalid), false)
    else if At(k.lists, SemList(s)) != [] then Out(k, Fail(SemPended), false)
    else
      Out(SetSem(k.(obj := k.obj.(semFree := [s] + k.obj.semFree)), s, k.obj.sems[s].(used := false)), Ok, false)
  }

  function Pend(k: Kernel, s: nat, timeout: nat, inInt: bool): Out
    requires k.run < |k.tcbs|
  {
    if s >= |k.obj.sems| || !k.obj.sems[s].used then Out(k, Fail(SemInvalid), false)
    else if inInt then Out(k, Fail(SemPendInInterrupt), false)
    else if k.lock != 0 then Out(k, Fail(SemPendInLock), false)
    else
      var x := k.obj.sems[s];
      if x.count > 0 then Out(SetSem(k, s, x.(count := x.count - 1)), Ok, false)
      else if timeout == 0 then Out(k, Fail(SemUnavailable), false)
      else Out(Wait(k, SemCall(s), timeout), Waiting, true)
  }

  function Post(k: Kernel, s: nat): Out
    requires Members(k, SemList(s))
  {
    if s >= |k.obj.sems| || !k.obj.sems[s].used then Out(k, Fail(SemInvalid), false)
    else
      var x := k.obj.sems[s];
      var l := At(k.lists, SemList(s));
      if x.max == x.count then Out(k, Fail(SemOverflow), false)
      else if l != [] then assert l[0] in l; Out(Wake(k, l[0]), Ok, true)
      else Out(SetSem(k, s, x.(count := x.count + 1)), Ok, false)
  }
}
