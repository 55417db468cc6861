/** kernel/src/los_sched.c: moving tasks between the running, ready and waiting states. */
module Sched {
  import opened Sequences
  import opened Deadlines
  import opened KernelState

  function Unlink(m: Lists, t: Tid): (r: Lists)
    ensures forall l {:trigger At(r, l)} :: At(r, l) == Drop(At(m, l), t)
  {
    map l | l in m :: Drop(m[l], t)
  }

  function PushFront(m: Lists, l: ListId, t: Tid): Lists {
    m[l := [t] + At(m, l)]
  }

  function PushBack(m: Lists, l: ListId, t: Tid): Lists {
    m[l := At(m, l) + [t]]
  }

  function SetTcb(k: Kernel, t: Tid, c: Tcb): Kernel
    requires t < |k.tcbs|
  {
    k.(tcbs := k.tcbs[t := c])
  }

  function EnQueue(k: Kernel, t: Tid): (r: Kernel)
    requires t < |k.tcbs|
    ensures |r.tcbs| == |k.tcbs| && r.cfg == k.cfg && r.run == k.run && r.now == k.now && r.obj == k.obj
  {
    var c := k.tcbs[t];
    var st := c.st.(pend := false, suspend := false, delay := false, pendTime := false, ready := true);
    if t == k.cfg.idle then
      SetTcb(k, t, c.(st := st))
    else if c.slice > k.cfg.sliceMin then
      SetTcb(k, t, c.(st := st)).(lists := PushFront(k.lists, ReadyList(c.prio), t))
    else
      SetTcb(k, t, c.(st := st, slice := k.cfg.sliceFull)).(lists := PushBack(k.lists, ReadyList(c.prio), t))
  }

  function DeQueue(k: Kernel, t: Tid): (r: Kernel)
    requires t < |k.tcbs|
    ensures |r.tcbs| == |k.tcbs| && r.cfg == k.cfg && r.run == k.run && r.now == k.now && r.obj == k.obj
  {
    var c := k.tcbs[t];
    if !c.st.ready then k
    else
      SetTcb(k, t, c.(st := c.st.(ready := false)))
      .(lists := if t == k.cfg.idle then k.lists else Unlink(k.lists, t))
  }

  function Exit(k: Kernel, t: Tid): (r: Kernel)
    requires t < |k.tcbs|
    ensures |r.tcbs| == |k.tcbs| && r.cfg == k.cfg && r.run == k.run && r.now == k.now && r.obj == k.obj
  {
    var k1 :=
      if k.tcbs[t].st.ready then DeQueue(k, t)
      else if k.tcbs[t].st.pend then
        SetTcb(k, t, k.tcbs[t].(st := k.tcbs[t].st.(pend := false))).(lists := Unlink(k.lists, t))
      else k;
    var c := k1.tcbs[t];
    if c.st.delay || c.st.pendTime then
      SetTcb(k1, t, c.(st := c.st.(delay := false, pendTime := false))).(timers := Remove(k1.timers, t))
    else k1
  }

  function Wait(k: Kernel, call: Call, ticks: nat): (r: Kernel)
    requires k.run < |k.tcbs|
    ensures |r.tcbs| == |k.tcbs| && r.cfg == k.cfg && r.run == k.run && r.now == k.now && r.obj == k.obj
  {
    var c := k.tcbs[k.run];
    var st := c.st.(pend := true);
    var c' := if ticks == WAIT_FOREVER then c.(st := st) else c.(st := st.(pendTime := true), waitTicks := ticks);
    SetTcb(k, k.run, c'.(call := call)).(lists := PushBack(k.lists, WaitListOf(call), k.run))
  }

  function Wake(k: Kernel, t: Tid): (r: Kernel)
    requires t < |k.tcbs|
    ensures |r.tcbs| == |k.tcbs| && r.cfg == k.cfg && r.run == k.run && r.now == k.now && r.obj == k.obj
  {
    var c := k.tcbs[t];
    var k1 := k.(lists := Unlink(k.lists, t), timers := if c.st.pendTime then Remove(k.timers, t) else k.timers);
    var k2 := SetTcb(k1, t, c.(st := c.st.(pend := false, pendTime := false)));
    if c.st.suspend then k2 else EnQueue(k2, t)
  }

  function ModifyPrio(k: Kernel, t: Tid, prio: nat): (r: Kernel)
    requires t < |k.tcbs|
    ensures |r.tcbs| == |k.tcbs| && r.cfg == k.cfg && r.run == k.run && r.now == k.now && r.obj == k.obj
  {
    if k.tcbs[t].st.ready then
      var k1 := DeQueue(k, t);
      EnQueue(SetTcb(k1, t, k1.tcbs[t].(prio := prio)), t)
    else SetTcb(k, t, k.tcbs[t].(prio := prio))
  }

  function TimeoutWake(k: Kernel, t: Tid): (r: Kernel)
    requires t < |k.tcbs|
    ensures |r.tcbs| == |k.tcbs| && r.cfg == k.cfg && r.run == k.run && r.now == k.now && r.obj == k.obj
  {
    var c := k.tcbs[t];
    if !c.st.pend && !c.st.delay then k
    else
      var st := c.st.(pend := false, pendTime := false, delay := false);
      var k1 := if c.st.pend then
                  SetTcb(k, t, c.(st := st.(timeout := true))).(lists := Unlink(k.lists, t))
                else SetTcb(k, t, c.(st := st));
      if c.st.suspend then k1 else EnQueue(k1, t)
  }

  predicate Woken(k: Kernel, t: Tid)
    requires t < |k.tcbs|
  {
    var f := k.tcbs[t].st;
    (f.pend || f.delay) && !f.suspend
  }

  /** The timer scan: handle the head of the deadline queue while it is due. */
  function ScanTimers(k: Kernel, now: nat): (r: (Kernel, bool))
    requires forall e :: e in k.timers ==> e.id < |k.tcbs|
    ensures |r.0.tcbs| == |k.tcbs| && r.0.run == k.run && r.0.obj == k.obj
    decreases |k.timers|
  {
    if k.timers == [] || k.timers[0].time > now then (k, false)
    else
      var t := k.timers[0].id;
      assert k.timers[0] in k.timers;
      var k1 := TimeoutWake(k.(timers := Remove(k.timers, t)), t);
      assert forall e :: e in k1.timers ==> e in k.timers;
      var (k2, need) := ScanTimers(k1, now);
      (k2, Woken(k, t) || need)
  }

  /** The first task of the first nonempty ready list, or the idle task. */
  function TopFrom(k: Kernel, p: nat): Tid
    requires p <= LOWEST + 1
    decreases LOWEST + 1 - p
  {
    if p == LOWEST + 1 then k.cfg.idle
    else if At(k.lists, ReadyList(p)) != [] then At(k.lists, ReadyList(p))[0]
    else TopFrom(k, p + 1)
  }

  function Top(k: Kernel): Tid {
    TopFrom(k, 0)
  }

  /** The scan of the ready lists ends at the first one that is not empty. */
  lemma {:induction false} TopFromIs(k: Kernel, from: nat, p: nat)
    requires from <= p <= LOWEST && At(k.lists, ReadyList(p)) != []
    requires forall q :: from <= q < p ==> At(k.lists, ReadyList(q)) == []
    ensures TopFrom(k, from) == At(k.lists, ReadyList(p))[0]
    decreases p - from
  {
    if from < p {
      TopFromIs(k, from + 1, p);
    }
  }

  lemma {:induction false} TopFromIdle(k: Kernel, from: nat)
    requires from <= LOWEST + 1 && forall p :: 0 <= p <= LOWEST ==> At(k.lists, ReadyList(p)) == []
    ensures TopFrom(k, from) == k.cfg.idle
    decreases LOWEST + 1 - from
  {
    if from <= LOWEST {
      TopFromIdle(k, from + 1);
    }
  }

  function ChargeSlice(k: Kernel, now: nat): Kernel
    requires k.run < |k.tcbs|
  {
    var c := k.tcbs[k.run];
    SetTcb(k, k.run, c.(slice := if k.run == k.cfg.idle then c.slice else c.slice - (now - c.start), start := now))
    .(now := now)
  }

  /** What the running task asked for: a deadline, the ready list, or nothing. */
  function Park(k: Kernel): Kernel
    requires k.run < |k.tcbs|
  {
    var c := k.tcbs[k.run];
    if c.st.pendTime || c.st.delay then
      k.(timers := Insert(k.timers, Entry(k.run, Deadline(c.start, c.waitTicks, k.cfg.cyclesPerTick))))
    else if c.st.pend || c.st.suspend || c.st.unused then k
    else EnQueue(k, k.run)
  }

  /** `k.run` gives the processor to `n`. */
  function Dispatch(k: Kernel, n: Tid): Kernel
    requires k.run < |k.tcbs| && n < |k.tcbs|
  {
    var k1 :=
      if k.run == n then k
      else
        var prev := k.tcbs[k.run];
        var k0 := SetTcb(k, k.run, prev.(st := prev.st.(running := false)));
        SetTcb(k0, n, k0.tcbs[n].(st := k0.tcbs[n].st.(running := true), start := prev.start));
    DeQueue(k1, n).(run := n)
  }

  function Switch(k: Kernel, now: nat): Kernel
    requires Shape(k)
    requires Top(Park(ChargeSlice(k, now))) < |k.tcbs|
  {
    var k1 := Park(ChargeSlice(k, now));
    Dispatch(k1, Top(k1))
  }
}
