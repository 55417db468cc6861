/** kernel/src/los_mux.c */
module Mutex {
  import opened Sequences
  import opened KernelState
  import opened Sched

  function SetMux(k: Kernel, m: nat, x: Mux): Kernel
    requires m < |k.obj.muxes|
  {
    k.(obj := k.obj.(muxes := k.obj.muxes[m := x]))
  }

  function Create(k: Kernel): Out
    requires forall m :: m in k.obj.muxFree ==> m < |k.obj.muxes|
  {
    if k.obj.muxFree == [] then Out(k, Fail(MuxAllBusy), false)
    else
      var m := k.obj.muxFree[0];
      assert m in k.obj.muxFree;
      Out(SetMux(k.(obj := k.obj.(muxFree := k.obj.muxFree[1..])), m, Mux(true, 0, None, 0)), Id(m), false)
  }

  function Delete(k: Kernel, m: nat): Out {
    if m >= |k.obj.muxes| || !k.obj.muxes[m].used then Out(k, Fail(MuxInvalid), false)
    else if At(k.lists, MuxList(m)) != [] || k.obj.muxes[m].count != 0 then Out(k, Fail(MuxPended), false)
    else
      Out(SetMux(k.(obj := k.obj.(muxFree := [m] + k.obj.muxFree)), m, k.obj.muxes[m].(used := false)), Ok, false)
  }

  /** The owner inherits the priority of a more urgent task that is about to wait for it. */
  function Boost(k: Kernel, owner: Tid): Kernel
    requires owner < |k.tcbs| && k.run < |k.tcbs|
  {
    if k.tcbs[owner].prio > k.tcbs[k.run].prio then ModifyPrio(k, owner, k.tcbs[k.run].prio) else k
  }

  function Pend(k: Kernel, m: nat, timeout: nat, inInt: bool): Out
    requires k.run < |k.tcbs|
    requires forall i :: 0 <= i < |k.obj.muxes| && k.obj.muxes[i].count > 0 ==>
               k.obj.muxes[i].owner.Some? && k.obj.muxes[i].owner.value < |k.tcbs|
  {
    if m >= |k.obj.muxes| || !k.obj.muxes[m].used then Out(k, Fail(MuxInvalid), false)
    else if inInt then Out(k, Fail(MuxPendInInterrupt), false)
    else if k.lock != 0 then Out(k, Fail(MuxPendInLock), false)
    else
      var x := k.obj.muxes[m];
      if x.count == 0 then
        Out(SetMux(k, m, x.(count := 1, owner := Some(k.run), prio := k.tcbs[k.run].prio)), Ok, false)
      else if x.owner.value == k.run then Out(SetMux(k, m, x.(count := x.count + 1)), Ok, false)
      else if timeout == 0 then Out(k, Fail(MuxUnavailable), false)
      else Out(Wait(Boost(k, x.owner.value), MuxCall(m), timeout), Waiting, true)
  }

  /** The releasing task goes back to the priority it had when it took the mutex. */
  function Restore(k: Kernel, x: Mux): Kernel
    requires k.run < |k.tcbs|
  {
    if k.tcbs[k.run].prio != x.prio then ModifyPrio(k, k.run, x.prio) else k
  }

  function HandOff(k: Kernel, m: nat, t: Tid): Kernel
    requires m < |k.obj.muxes| && t < |k.tcbs|
  {
    Wake(SetMux(k, m, k.obj.muxes[m].(count := 1, owner := Some(t), prio := k.tcbs[t].prio)), t)
  }

  function Post(k: Kernel, m: nat): Out
    requires k.run < |k.tcbs|
    requires Members(k, MuxList(m))
  {
    if m >= |k.obj.muxes| || !k.obj.muxes[m].used then Out(k, Fail(MuxInvalid), false)
    else
      var x := k.obj.muxes[m];
      if x.count == 0 || x.owner != Some(k.run) then Out(k, Fail(MuxInvalid), false)
      else if x.count > 1 then Out(SetMux(k, m, x.(count := x.count - 1)), Ok, false)
      else
        var k1 := Restore(SetMux(k, m, x.(count := 0)), x);
        var l := At(k.lists, MuxList(m));
        if l == [] then Out(k1, Ok, false)
        else assert l[0] in l; Out(HandOff(k1, m, l[0]), Ok, true)
  }
}
