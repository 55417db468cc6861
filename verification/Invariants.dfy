/** What every kernel step keeps of the semaphores, mutexes, queues and events. */
module Invariants {
  import opened Sequences
  import opened KernelState
  import opened SchedProofs
  import opened MessageQueue
  import opened EventFlags

  // ---- Semaphores ----

  ghost predicate SemOK(x: Sem, waiters: seq<Tid>) {
    && x.count <= x.max
    && (waiters != [] ==> x.used && x.count == 0)
  }

  ghost predicate SemsOK(k: Kernel) {
    && (forall s :: 0 <= s < |k.obj.sems| ==> SemOK(k.obj.sems[s], At(k.lists, SemList(s))))
    && (forall s: nat :: s >= |k.obj.sems| ==> At(k.lists, SemList(s)) == [])
    && NoDup(k.obj.semFree)
    && (forall s: nat :: s in k.obj.semFree <==> s < |k.obj.sems| && !k.obj.sems[s].used)
  }

  // ---- Mutexes ----

  ghost predicate MuxOK(k: Kernel, x: Mux, waiters: seq<Tid>)
    requires Shape(k)
  {
    && (waiters != [] ==> x.count > 0)
    && (x.count > 0 ==>
          && x.used && x.owner.Some? && x.owner.value < k.cfg.tasks
          && !k.tcbs[x.owner.value].st.unused && x.owner.value !in waiters
          && x.prio <= LOWEST)
  }

  ghost predicate MuxesOK(k: Kernel)
    requires Shape(k)
  {
    && (forall m :: 0 <= m < |k.obj.muxes| ==> MuxOK(k, k.obj.muxes[m], At(k.lists, MuxList(m))))
    && (forall m: nat :: m >= |k.obj.muxes| ==> At(k.lists, MuxList(m)) == [])
    && NoDup(k.obj.muxFree)
    && (forall m: nat :: m in k.obj.muxFree <==> m < |k.obj.muxes| && !k.obj.muxes[m].used)
  }

  // ---- Queues ----

  /** Woken inside a queue call and not yet back: this task owns a slot that no counter records. */
  predicate InFlight(c: Tcb, q: nat, reader: bool) {
    && !c.st.pend && !c.st.timeout
    && (if reader then c.call.ReadCall? && c.call.queue == q else c.call.WriteCall? && c.call.queue == q)
  }

  function Flight(k: Kernel, q: nat, reader: bool): set<Tid>
    requires |k.tcbs| == k.cfg.tasks + 1
  {
    set t | 0 <= t < k.cfg.tasks && InFlight(k.tcbs[t], q, reader)
  }

  function Wrap(i: nat, len: nat): nat {
    if i < len then i else i - len
  }

  /** A call that still has a claim on queue `q` fits its slots. */
  predicate CallFits(c: Tcb, q: nat, size: nat) {
    !c.st.timeout ==>
      && (c.call.ReadCall? && c.call.queue == q ==> size <= c.call.room + WORD)
      && (c.call.WriteCall? && c.call.queue == q ==> |c.call.msg| + WORD <= size)
  }

  /** Messages in the ring: the readable ones, and those already promised to woken readers. */
  function Stored(k: Kernel, q: nat): nat
    requires Shape(k) && q < |k.obj.queues|
  {
    k.obj.queues[q].readable + |Flight(k, q, true)|
  }

  /** Slots in use or promised: readable, writable, and the two kinds of promise make up the whole ring. */
  ghost predicate Conserved(x: Queue, readers: nat, writers: nat) {
    x.readable + x.writable + readers + writers == x.len
  }

  ghost predicate UsedQueueOK(x: Queue, readers: nat, writers: nat, readWait: seq<Tid>, writeWait: seq<Tid>) {
    && RingShape(x)
    && x.size > WORD
    && Conserved(x, readers, writers)
    && x.tail == Wrap(x.head + x.readable + readers, x.len)
    && (readWait != [] ==> x.readable == 0)
    && (writeWait != [] ==> x.writable == 0)
    && (forall i :: 0 <= i < x.len ==> |x.slots[i]| + WORD <= x.size)
  }

  ghost predicate QueueOK(k: Kernel, q: nat)
    requires Shape(k)
  {
    var rl, wl := At(k.lists, ReadList(q)), At(k.lists, WriteList(q));
    var r, w := Flight(k, q, true), Flight(k, q, false);
    if q < |k.obj.queues| && k.obj.queues[q].used then
      && UsedQueueOK(k.obj.queues[q], |r|, |w|, rl, wl)
      && (forall t :: 0 <= t < k.cfg.tasks ==> CallFits(k.tcbs[t], q, k.obj.queues[q].size))
    else
      rl == [] && wl == [] && r == {} && w == {}
  }

  ghost predicate QueuesOK(k: Kernel)
    requires Shape(k)
  {
    && (forall q: nat :: QueueOK(k, q))
    && NoDup(k.obj.queueFree)
    && (forall q: nat :: q in k.obj.queueFree <==> q < |k.obj.queues| && !k.obj.queues[q].used)
  }

  // ---- Events ----

  /** Nobody waits for bits that are already there. */
  ghost predicate EventOK(k: Kernel, e: nat) {
    forall t :: t in At(k.lists, EventList(e)) ==>
      && e < |k.obj.events| && k.obj.events[e].ready && t < |k.tcbs|
      && k.tcbs[t].eventMask != 0 && ModeOK(k.tcbs[t].eventMode)
      && Match(k.obj.events[e].bits, k.tcbs[t].eventMask, k.tcbs[t].eventMode) == 0
  }

  ghost predicate EventsOK(k: Kernel) {
    forall e: nat :: EventOK(k, e)
  }

  ghost predicate ObjectsOK(k: Kernel)
    requires Shape(k)
  {
    SemsOK(k) && MuxesOK(k) && QueuesOK(k) && EventsOK(k)
  }

  // ---- Steps that change no object ----

  lemma FlightSame(k: Kernel, k': Kernel, q: nat, reader: bool)
    requires Shape(k) && Shape(k') && k'.cfg == k.cfg
    requires forall x :: 0 <= x < k.cfg.tasks ==> (InFlight(k'.tcbs[x], q, reader) <==> InFlight(k.tcbs[x], q, reader))
    ensures Flight(k', q, reader) == Flight(k, q, reader)
  {
  }

  /** Task `t` neither gains nor loses a claim on any queue, and stays alive if it owns a mutex. */
  ghost predicate Harmless(k: Kernel, k': Kernel, t: Tid)
    requires t < |k.tcbs| && t < |k'.tcbs|
  {
    var c, c' := k.tcbs[t], k'.tcbs[t];
    && (forall q, r :: InFlight(c', q, r) <==> InFlight(c, q, r))
    && (forall q, n :: CallFits(c, q, n) ==> CallFits(c', q, n))
    && (c'.st.unused ==> forall m :: 0 <= m < |k.obj.muxes| && k.obj.muxes[m].count > 0 ==>
        k.obj.muxes[m].owner != Some(t))
  }

  lemma LeavesQueue(k: Kernel, k': Kernel, t: Tid, q: nat)
    requires Shape(k) && Shape(k') && Leaves(k, k', t) && t < k.cfg.tasks && Harmless(k, k', t) && QueueOK(k, q)
    ensures QueueOK(k', q)
  {
    FlightSame(k, k', q, true);
    FlightSame(k, k', q, false);
    if q < |k.obj.queues| && k.obj.queues[q].used {
      forall x | 0 <= x < k.cfg.tasks ensures CallFits(k'.tcbs[x], q, k.obj.queues[q].size) {
        assert CallFits(k.tcbs[x], q, k.obj.queues[q].size);
        if x != t {
          assert SameCall(k.tcbs[x], k'.tcbs[x]);
        }
      }
    }
  }

  lemma LeavesMuxes(k: Kernel, k': Kernel, t: Tid)
    requires Shape(k) && Shape(k') && Leaves(k, k', t) && t < k.cfg.tasks && Harmless(k, k', t) && MuxesOK(k)
    ensures MuxesOK(k')
  {
    forall m | 0 <= m < |k.obj.muxes| ensures MuxOK(k', k'.obj.muxes[m], At(k'.lists, MuxList(m))) {
      assert MuxOK(k, k.obj.muxes[m], At(k.lists, MuxList(m)));
      assert At(k'.lists, MuxList(m)) == Drop(At(k.lists, MuxList(m)), t);
    }
  }

  lemma LeavesEvents(k: Kernel, k': Kernel, t: Tid)
    requires Leaves(k, k', t) && EventsOK(k)
    ensures EventsOK(k')
  {
    forall e: nat ensures EventOK(k', e) {
      assert EventOK(k, e);
      var l := At(k.lists, EventList(e));
      forall x | x in At(k'.lists, EventList(e)) ensures x in l && x != t {
        assert x in Drop(l, t);
      }
    }
  }

  lemma LeavesSems(k: Kernel, k': Kernel, t: Tid)
    requires Leaves(k, k', t) && SemsOK(k)
    ensures SemsOK(k')
  {
    forall s | 0 <= s < |k.obj.sems| ensures SemOK(k'.obj.sems[s], At(k'.lists, SemList(s))) {
      assert SemOK(k.obj.sems[s], At(k.lists, SemList(s)));
    }
  }

  lemma LeavesObjects(k: Kernel, k': Kernel, t: Tid)
    requires Shape(k) && Shape(k') && Leaves(k, k', t) && t < k.cfg.tasks && Harmless(k, k', t) && ObjectsOK(k)
    ensures ObjectsOK(k')
  {
    LeavesSems(k, k', t);
    LeavesMuxes(k, k', t);
    LeavesEvents(k, k', t);
    forall q: nat ensures QueueOK(k', q) {
      LeavesQueue(k, k', t, q);
    }
  }

  lemma QuietObjects(k: Kernel, k': Kernel)
    requires Shape(k) && Shape(k') && Quiet(k, k') && ObjectsOK(k)
    ensures ObjectsOK(k')
  {
    forall e: nat ensures EventOK(k', e) {
      assert EventOK(k, e);
    }
    forall q: nat ensures QueueOK(k', q) {
      assert QueueOK(k, q);
      FlightSame(k, k', q, true);
      FlightSame(k, k', q, false);
    }
    forall m | 0 <= m < |k.obj.muxes| ensures MuxOK(k', k'.obj.muxes[m], At(k'.lists, MuxList(m))) {
      assert MuxOK(k, k.obj.muxes[m], At(k.lists, MuxList(m)));
    }
  }
}
