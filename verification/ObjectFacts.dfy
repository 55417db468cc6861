/** What the kernel invariant says where the blocking primitives touch tasks. */
module ObjectFacts {
  import opened KernelState
  import opened TaskProofs
  import opened KernelObjects
  import opened SchedCode
  import opened SwitchCode
  import QueueProofs

  /** A running task is on no list, so it can be put on a wait list. */
  lemma RunFree(k: Kernel)
    requires KernelOK(k)
    ensures k.run < k.cfg.tasks && k.run < |k.tcbs| && Nowhere(k.lists, k.run) && Homed(k, k.run)
            && TcbAt(k, k.run) == k.tcbs[k.run]
  {
    HomedNow(k, k.run);
    assert TaskOK(k, k.run);
  }

  /** A task on a wait list can be woken. */
  ghost predicate Wakeable(k: Kernel, t: Tid) {
    && t < k.cfg.tasks && t != k.cfg.idle && Homed(k, t) && TcbAt(k, t).st.pend && !TcbAt(k, t).st.unused
  }

  lemma WakeableFacts(k: Kernel, t: Tid)
    requires Wakeable(k, t)
    ensures t < k.cfg.tasks && t != k.cfg.idle && Homed(k, t) && TcbAt(k, t).st.pend && !TcbAt(k, t).st.unused
  {
  }

  lemma Waiter(k: Kernel, l: ListId, t: Tid)
    requires SchedOK(k) && l.IsWait() && t in At(k.lists, l)
    ensures Wakeable(k, t)
  {
    assert On(k, l, t);
    HomedNow(k, t);
    assert TaskOK(k, t);
  }

  lemma FirstWaiter(k: Kernel, l: ListId)
    requires KernelOK(k) && l.IsWait()
    ensures Members(k, l)
    ensures At(k.lists, l) != [] ==> At(k.lists, l)[0] < |k.tcbs| && Wakeable(k, At(k.lists, l)[0])
  {
    QueueProofs.MembersOK(k);
    if At(k.lists, l) != [] {
      Waiter(k, l, At(k.lists, l)[0]);
    }
  }

  /** Changes outside the task list and the task's own record do not matter. */
  lemma StillWakeable(k: Kernel, k': Kernel, t: Tid)
    requires Wakeable(k, t) && k'.lists == k.lists && k'.cfg == k.cfg && |k'.tcbs| == |k.tcbs|
             && TcbAt(k', t) == TcbAt(k, t)
    ensures Wakeable(k', t)
  {
  }
}
