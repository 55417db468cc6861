/** Mutex ownership and priorities over whole runs. */
module MuxHistory {
  import opened Sequences
  import opened KernelState
  import opened Sched
  import opened Invariants
  import opened TaskProofs
  import opened Machine
  import opened MachineProofs
  import opened Frames
  import Mutex

  // ---- Acquisitions and releases ----

  predicate Owns(k: Kernel, t: Tid, m: nat) {
    m < |k.obj.muxes| && k.obj.muxes[m].count > 0 && k.obj.muxes[m].owner == Some(t)
  }

  /** How often `t` still has to release mutex `m`. */
  function Depth(k: Kernel, t: Tid, m: nat): nat {
    if Owns(k, t, m) then k.obj.muxes[m].count else 0
  }

  /** A release that hands the mutex over. */
  predicate HandsOver(k: Kernel, op: Op, ret: Ret) {
    op.MuxPost? && ret == Ok && op.mux < |k.obj.muxes| && k.obj.muxes[op.mux].count == 1
        && At(k.lists, MuxList(op.mux)) != []
  }

  /** Acquisitions of `m` by `t`: a pend that succeeds at once, or a hand-over to the longest waiting task. */
  function Takes(k: Kernel, op: Op, ret: Ret, t: Tid, m: nat): nat {
    if op.MuxPend? && op.mux == m && ret == Ok && t == k.run then 1
    else if HandsOver(k, op, ret) && op.mux == m && t == At(k.lists, MuxList(m))[0] then 1
    else 0
  }

  function Releases(k: Kernel, op: Op, ret: Ret, t: Tid, m: nat): nat {
    if op.MuxPost? && op.mux == m && ret == Ok && t == k.run then 1 else 0
  }

  lemma CreateDepth(k: Kernel, t: Tid, m: nat)
    requires KernelOK(k) && Defined(k)
    ensures Depth(Mutex.Create(k).k, t, m) == Depth(k, t, m)
  {
    if k.obj.muxFree != [] {
      assert k.obj.muxFree[0] in k.obj.muxFree;
      assert MuxOK(k, k.obj.muxes[k.obj.muxFree[0]], At(k.lists, MuxList(k.obj.muxFree[0])));
    }
  }

  lemma DoMuxDepth(k: Kernel, op: Op, inInt: bool, t: Tid, m: nat)
    requires KernelOK(k) && Defined(k) && ServiceOf(op) == OnMux
    ensures var o := DoMux(k, op, inInt);
            Depth(o.k, t, m) + Releases(k, op, o.ret, t, m) == Depth(k, t, m) + Takes(k, op, o.ret, t, m)
  {
    match op {
      case MuxCreate => CreateDepth(k, t, m);
      case MuxDelete(i) => hide KernelOK, Defined;
      case MuxPend(i, timeout) => PendDepth(k, i, timeout, inInt, t, m);
      case MuxPost(i) =>
        assert Members(k, MuxList(i));
        PostDepth(k, i, t, m);
    }
  }

  lemma PostDepth(k: Kernel, i: nat, t: Tid, m: nat)
    requires k.run < |k.tcbs| && Members(k, MuxList(i))
    ensures var o := Mutex.Post(k, i);
            Depth(o.k, t, m) + Releases(k, MuxPost(i), o.ret, t, m) ==
            Depth(k, t, m) + Takes(k, MuxPost(i), o.ret, t, m)
  {
    hide Wake, ModifyPrio, Mutex.Restore;
    if i < |k.obj.muxes| && k.obj.muxes[i].count == 1 && k.obj.muxes[i].owner == Some(k.run) {
      var k1 := Mutex.Restore(Mutex.SetMux(k, i, k.obj.muxes[i].(count := 0)), k.obj.muxes[i]);
      RestoreObj(Mutex.SetMux(k, i, k.obj.muxes[i].(count := 0)), k.obj.muxes[i]);
      var l := At(k.lists, MuxList(i));
      if l != [] {
        assert l[0] in l;
        assert Mutex.HandOff(k1, i, l[0]).obj.muxes[i].owner == Some(l[0]);
      }
    }
  }

  lemma RestoreObj(k: Kernel, x: Mux)
    requires k.run < |k.tcbs|
    ensures Mutex.Restore(k, x).obj == k.obj && |Mutex.Restore(k, x).tcbs| == |k.tcbs|
  {
  }

  lemma PendDepth(k: Kernel, i: nat, timeout: nat, inInt: bool, t: Tid, m: nat)
    requires k.run < |k.tcbs|
    requires forall j :: 0 <= j < |k.obj.muxes| && k.obj.muxes[j].count > 0 ==>
               k.obj.muxes[j].owner.Some? && k.obj.muxes[j].owner.value < |k.tcbs|
    ensures var o := Mutex.Pend(k, i, timeout, inInt);
            var op := MuxPend(i, timeout);
            Depth(o.k, t, m) + Releases(k, op, o.ret, t, m) == Depth(k, t, m) + Takes(k, op, o.ret, t, m)
  {
    hide Wait, ModifyPrio;
  }

  lemma DoDepth(k: Kernel, op: Op, inInt: bool, t: Tid, m: nat)
    requires KernelOK(k) && Defined(k)
    ensures var o := Do(k, op, inInt);
            Depth(o.k, t, m) + Releases(k, op, o.ret, t, m) == Depth(k, t, m) + Takes(k, op, o.ret, t, m)
  {
    hide DoTask, DoSem, DoMux, DoEvent, DoQueue, Defined, KernelOK;
    match ServiceOf(op) {
      case OnTask =>
        if op.Finish? {
          FinishIsTask(k, op, inInt);
          FinishKeeps(k);
        } else {
          TaskCallsKeepObjects(k, op, inInt);
        }
      case OnSem => SemCallsKeep(k, op, inInt);
      case OnMux => DoMuxDepth(k, op, inInt, t, m);
      case OnEvent => EventCallsKeep(k, op, inInt);
      case OnQueue => QueueCallsKeep(k, op, inInt);
    }
  }

  ghost function StepTakes(k: Kernel, step: Step, t: Tid, m: nat): nat
    requires KernelOK(k) && Legal(k, step)
  {
    KernelDefined(k);
    if IsOp(step) then Takes(k, OpOf(step), Do(k, OpOf(step), step.Interrupt?).ret, t, m) else 0
  }

  ghost function StepReleases(k: Kernel, step: Step, t: Tid, m: nat): nat
    requires KernelOK(k) && Legal(k, step)
  {
    KernelDefined(k);
    if IsOp(step) then Releases(k, OpOf(step), Do(k, OpOf(step), step.Interrupt?).ret, t, m) else 0
  }

  ghost function AllTakes(k: Kernel, steps: seq<Step>, t: Tid, m: nat): nat
    requires KernelOK(k) && LegalRun(k, steps)
    decreases |steps|
  {
    if steps == [] then 0 else StepTakes(k, steps[0], t, m) + AllTakes(Next(k, steps[0]), steps[1..], t, m)
  }

  ghost function AllReleases(k: Kernel, steps: seq<Step>, t: Tid, m: nat): nat
    requires KernelOK(k) && LegalRun(k, steps)
    decreases |steps|
  {
    if steps == [] then 0 else StepReleases(k, steps[0], t, m) + AllReleases(Next(k, steps[0]), steps[1..], t, m)
  }

  lemma StepDepth(k: Kernel, step: Step, t: Tid, m: nat)
    requires KernelOK(k) && Legal(k, step)
    ensures Depth(Next(k, step), t, m) + StepReleases(k, step, t, m) == Depth(k, t, m) + StepTakes(k, step, t, m)
  {
    NextObjects(k, step);
    if IsOp(step) {
      DoDepth(k, OpOf(step), step.Interrupt?, t, m);
    }
  }

  /** Over every run the lock count is the owner's acquisitions minus its releases; everybody else's balance is zero. */
  lemma {:induction false} DepthOverRuns(k: Kernel, steps: seq<Step>, t: Tid, m: nat)
    requires KernelOK(k) && LegalRun(k, steps)
    ensures Depth(Run(k, steps), t, m) + AllReleases(k, steps, t, m) == Depth(k, t, m) + AllTakes(k, steps, t, m)
    decreases |steps|
  {
    if steps != [] {
      StepDepth(k, steps[0], t, m);
      hide Next, StepTakes, StepReleases;
      DepthOverRuns(Next(k, steps[0]), steps[1..], t, m);
    }
  }

  /** In every reachable state a mutex with waiters is locked, by a live task that is not among them. */
  lemma WaitersMeanLocked(k: Kernel, m: nat)
    requires KernelOK(k) && At(k.lists, MuxList(m)) != []
    ensures m < |k.obj.muxes| && k.obj.muxes[m].used && k.obj.muxes[m].count > 0 && k.obj.muxes[m].owner.Some?
    ensures var t := k.obj.muxes[m].owner.value;
            t < k.cfg.tasks && !k.tcbs[t].st.unused && !On(k, MuxList(m), t)
  {
    assert m < |k.obj.muxes|;
    assert MuxOK(k, k.obj.muxes[m], At(k.lists, MuxList(m)));
  }
}
