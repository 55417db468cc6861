/** Slot conservation and the ring as a double-ended queue. */
module QueueProofs {
  import opened Sequences
  import opened KernelState
  import opened Sched
  import opened SchedProofs
  import opened Invariants
  import opened TaskProofs
  import opened ObjectProofs
  import opened MessageQueue

  // ---- The ring refines a double-ended queue ----

  /** The messages in the ring, oldest first, when `n` slots are in use. */
  function Contents(x: Queue, n: nat): (r: seq<seq<Byte>>)
    requires RingShape(x) && n <= x.len
    ensures |r| == n && forall i :: 0 <= i < n ==> r[i] == x.slots[Wrap(x.head + i, x.len)]
  {
    seq(n, i requires 0 <= i < n => x.slots[Wrap(x.head + i, x.len)])
  }

  /** A read takes the oldest message and leaves the others in order. */
  lemma ReadTakesOldest(x: Queue, n: nat)
    requires RingShape(x) && 0 < n <= x.len
    ensures var r := RingRead(x);
            && RingShape(r.0) && [r.1] + Contents(r.0, n - 1) == Contents(x, n)
            && (x.tail == Wrap(x.head + n, x.len) ==> r.0.tail == Wrap(r.0.head + (n - 1), x.len))
  {
    var r := RingRead(x);
    var rest := [r.1] + Contents(r.0, n - 1);
    forall i | 0 <= i < n ensures rest[i] == Contents(x, n)[i] {
    }
  }

  /** A write to the tail adds a newest message, a write to the head an oldest one; no stored message is lost. */
  lemma WriteAdds(x: Queue, n: nat, front: bool, msg: seq<Byte>)
    requires RingShape(x) && n < x.len && x.tail == Wrap(x.head + n, x.len)
    ensures var y := RingWrite(x, front, msg);
            && RingShape(y) && y.tail == Wrap(y.head + (n + 1), x.len)
            && Contents(y, n + 1) == if front then [msg] + Contents(x, n) else Contents(x, n) + [msg]
  {
    var y := RingWrite(x, front, msg);
    var grown := if front then [msg] + Contents(x, n) else Contents(x, n) + [msg];
    forall i | 0 <= i < n + 1 ensures Contents(y, n + 1)[i] == grown[i] {
    }
  }

  // ---- The hand-off protocol ----

  /** `QueuesOK`, except that queue `q` promises `dr` more messages and `dw` more slots than tasks in flight need. */
  ghost predicate QueuesBut(k: Kernel, q: nat, dr: nat, dw: nat)
    requires Shape(k)
  {
    && q < |k.obj.queues| && k.obj.queues[q].used
    && UsedQueueOK(k.obj.queues[q], |Flight(k, q, true)| + dr, |Flight(k, q, false)| + dw,
                   At(k.lists, ReadList(q)), At(k.lists, WriteList(q)))
    && (forall t :: 0 <= t < k.cfg.tasks ==> CallFits(k.tcbs[t], q, k.obj.queues[q].size))
    && (forall p: nat :: p != q ==> QueueOK(k, p))
    && NoDup(k.obj.queueFree)
    && (forall p: nat :: p in k.obj.queueFree <==> p < |k.obj.queues| && !k.obj.queues[p].used)
  }

  ghost predicate OthersOK(k: Kernel)
    requires Shape(k)
  {
    SemsOK(k) && MuxesOK(k) && EventsOK(k)
  }

  lemma QueueSet(k: Kernel, q: nat, x: Queue, dr: nat, dw: nat, er: nat, ew: nat)
    requires Settled(k) && OthersOK(k) && QueuesBut(k, q, dr, dw) && x.used && x.size == k.obj.queues[q].size
    requires UsedQueueOK(x, |Flight(k, q, true)| + er, |Flight(k, q, false)| + ew,
                         At(k.lists, ReadList(q)), At(k.lists, WriteList(q)))
    ensures var k' := SetQueue(k, q, x); Settled(k') && OthersOK(k') && QueuesBut(k', q, er, ew)
  {
    var k' := SetQueue(k, q, x);
    SameTasksOK(k, k');
    SameEvents(k, k');
    SameMuxes(k, k');
    FlightSame(k, k', q, true);
    FlightSame(k, k', q, false);
    forall p: nat | p != q ensures QueueOK(k', p) {
      assert QueueOK(k, p);
      FlightSame(k, k', p, true);
      FlightSame(k, k', p, false);
    }
  }

  lemma QueuesButNone(k: Kernel, q: nat)
    requires Shape(k) && QueuesBut(k, q, 0, 0)
    ensures QueuesOK(k)
  {
    forall p: nat ensures QueueOK(k, p) {
    }
  }

  /** Task `t`, until now waiting for queue `q`, has been woken without a timeout. */
  ghost predicate Granted(k: Kernel, k': Kernel, t: Tid, q: nat, reader: bool)
    requires Shape(k) && Shape(k') && t < k.cfg.tasks && k'.cfg == k.cfg
  {
    && Leaves(k, k', t)
    && k.tcbs[t].st.pend && !k.tcbs[t].st.timeout && !k'.tcbs[t].st.pend && !k'.tcbs[t].st.timeout
    && k'.tcbs[t].call == k.tcbs[t].call
    && (if reader then k.tcbs[t].call.ReadCall? else k.tcbs[t].call.WriteCall?)
    && k.tcbs[t].call.queue == q
  }

  lemma GrantCounts(k: Kernel, k': Kernel, t: Tid, q: nat, reader: bool)
    requires Shape(k) && Shape(k') && t < k.cfg.tasks && k'.cfg == k.cfg && Granted(k, k', t, q, reader)
    ensures |Flight(k', q, reader)| == |Flight(k, q, reader)| + 1
    ensures Flight(k', q, !reader) == Flight(k, q, !reader)
  {
    assert Flight(k', q, reader) == Flight(k, q, reader) + {t};
    assert t !in Flight(k, q, reader);
    FlightSame(k, k', q, !reader);
  }

  lemma GrantFits(k: Kernel, k': Kernel, t: Tid, q: nat, reader: bool, p: nat, size: nat)
    requires Shape(k) && Shape(k') && t < k.cfg.tasks && k'.cfg == k.cfg && Granted(k, k', t, q, reader)
    requires forall x :: 0 <= x < k.cfg.tasks ==> CallFits(k.tcbs[x], p, size)
    ensures forall x :: 0 <= x < k.cfg.tasks ==> CallFits(k'.tcbs[x], p, size)
  {
    forall x | 0 <= x < k.cfg.tasks ensures CallFits(k'.tcbs[x], p, size) {
      assert CallFits(k.tcbs[x], p, size);
      assert x != t ==> SameCall(k.tcbs[x], k'.tcbs[x]);
    }
  }

  lemma GrantedQueueOK(k: Kernel, k': Kernel, t: Tid, q: nat, reader: bool)
    requires Shape(k) && Shape(k') && t < k.cfg.tasks && k'.cfg == k.cfg && Granted(k, k', t, q, reader)
    requires QueuesBut(k, q, if reader then 1 else 0, if reader then 0 else 1)
    ensures QueuesOK(k')
  {
    forall p: nat ensures QueueOK(k', p) {
      if p == q {
        GrantCounts(k, k', t, q, reader);
        GrantFits(k, k', t, q, reader, q, k.obj.queues[q].size);
        UsedQueueShrinks(k.obj.queues[q], |Flight(k', q, true)|, |Flight(k', q, false)|,
                         At(k.lists, ReadList(q)), At(k.lists, WriteList(q)), t);
      } else {
        LeavesOtherQueue(k, k', t, p);
      }
    }
  }

  lemma UsedQueueShrinks(x: Queue, r: nat, w: nat, rl: seq<Tid>, wl: seq<Tid>, t: Tid)
    requires UsedQueueOK(x, r, w, rl, wl)
    ensures UsedQueueOK(x, r, w, Drop(rl, t), Drop(wl, t))
  {
  }

  /** Waking the head of one of the queue's lists turns one spare promise into a task in flight. */
  lemma WakePromised(k: Kernel, q: nat, reader: bool)
    requires Settled(k) && OthersOK(k)
    requires QueuesBut(k, q, if reader then 1 else 0, if reader then 0 else 1)
    requires At(k.lists, if reader then ReadList(q) else WriteList(q)) != []
    ensures var t := At(k.lists, if reader then ReadList(q) else WriteList(q))[0];
            t < |k.tcbs| && SchedOK(Wake(k, t)) && ObjectsOK(Wake(k, t)) && Wake(k, t).tcbs[k.run] == k.tcbs[k.run]
  {
    var l := if reader then ReadList(q) else WriteList(q);
    WaitHead(k, l);
    var t := At(k.lists, l)[0];
    WakeOK(k, t);
    WakeGrants(k, t);
    assert TaskOK(k, t);
    assert TaskOK(Wake(k, t), t);
    GrantedQueueOK(k, Wake(k, t), t, q, reader);
    LeavesOthers(k, Wake(k, t), t);
  }

  lemma LeavesOthers(k: Kernel, k': Kernel, t: Tid)
    requires Shape(k) && Shape(k') && Leaves(k, k', t) && t < k.cfg.tasks && !k'.tcbs[t].st.unused && OthersOK(k)
    ensures OthersOK(k')
  {
    LeavesSems(k, k', t);
    LeavesEvents(k, k', t);
    forall m | 0 <= m < |k.obj.muxes| ensures MuxOK(k', k'.obj.muxes[m], At(k'.lists, MuxList(m))) {
      assert MuxOK(k, k.obj.muxes[m], At(k.lists, MuxList(m)));
      assert At(k'.lists, MuxList(m)) == Drop(At(k.lists, MuxList(m)), t);
    }
  }

  lemma LeavesOtherQueue(k: Kernel, k': Kernel, t: Tid, p: nat)
    requires Shape(k) && Shape(k') && Leaves(k, k', t) && t < k.cfg.tasks && QueueOK(k, p)
    requires k'.tcbs[t].call == k.tcbs[t].call
    requires (k.tcbs[t].call.ReadCall? || k.tcbs[t].call.WriteCall?) && k.tcbs[t].call.queue != p
    ensures QueueOK(k', p)
  {
    FlightSame(k, k', p, true);
    FlightSame(k, k', p, false);
    if p < |k.obj.queues| && k.obj.queues[p].used {
      forall x | 0 <= x < k.cfg.tasks ensures CallFits(k'.tcbs[x], p, k.obj.queues[p].size) {
        assert CallFits(k.tcbs[x], p, k.obj.queues[p].size);
        assert x != t ==> SameCall(k.tcbs[x], k'.tcbs[x]);
      }
    }
  }

  lemma MembersOK(k: Kernel)
    requires SchedOK(k)
    ensures forall l :: Members(k, l)
  {
    forall l, t: Tid | t in At(k.lists, l) ensures t < |k.tcbs| {
      assert On(k, l, t);
    }
  }

  lemma SlotCounted(k: Kernel, q: nat)
    requires Settled(k) && OthersOK(k) && QueuesBut(k, q, 0, 0)
    ensures SchedOK(k) && ObjectsOK(k)
  {
    QueuesButNone(k, q);
    hide SemsOK, MuxesOK, QueuesOK, EventsOK, QueuesBut;
  }

  lemma FreeSlotOK(k: Kernel, q: nat)
    requires Settled(k) && OthersOK(k) && QueuesBut(k, q, 0, 1)
    ensures Members(k, WriteList(q))
    ensures var k' := FreeSlot(k, q).0;
            SchedOK(k') && ObjectsOK(k') && k'.run == k.run && k'.now == k.now && k'.cfg == k.cfg
            && k'.tcbs[k.run] == k.tcbs[k.run]
  {
    MembersOK(k);
    if At(k.lists, WriteList(q)) != [] {
      WakePromised(k, q, false);
      hide Wake, SchedOK, ObjectsOK;
    } else {
      var x := k.obj.queues[q];
      hide OthersOK, ObjectsOK, SchedOK;
      QueueSet(k, q, x.(writable := x.writable + 1), 0, 1, 0, 0);
      SlotCounted(SetQueue(k, q, x.(writable := x.writable + 1)), q);
    }
  }

  lemma FillSlotOK(k: Kernel, q: nat)
    requires Settled(k) && OthersOK(k) && QueuesBut(k, q, 1, 0)
    ensures Members(k, ReadList(q))
    ensures var k' := FillSlot(k, q).0;
            SchedOK(k') && ObjectsOK(k') && k'.run == k.run && k'.now == k.now && k'.cfg == k.cfg
            && k'.tcbs[k.run] == k.tcbs[k.run]
  {
    MembersOK(k);
    if At(k.lists, ReadList(q)) != [] {
      WakePromised(k, q, true);
      hide Wake, SchedOK, ObjectsOK;
    } else {
      var x := k.obj.queues[q];
      hide OthersOK, ObjectsOK, SchedOK;
      QueueSet(k, q, x.(readable := x.readable + 1), 1, 0, 0, 0);
      SlotCounted(SetQueue(k, q, x.(readable := x.readable + 1)), q);
    }
  }

  /** A reader that holds a promise, by counter or by wake-up, gets the oldest message, and it fits its buffer. */
  lemma SlotIdle(k: Kernel, q: nat)
    requires IdleMade(k) && q < |k.obj.queues| && Members(k, ReadList(q)) && Members(k, WriteList(q))
    ensures IdleMade(FreeSlot(k, q).0) && IdleMade(FillSlot(k, q).0)
  {
    var rl, wl := At(k.lists, ReadList(q)), At(k.lists, WriteList(q));
    if rl != [] {
      assert rl[0] in rl;
      WakeIdle(k, rl[0]);
    }
    if wl != [] {
      assert wl[0] in wl;
      WakeIdle(k, wl[0]);
    }
    hide Wake;
  }

  /** The idle task stays alive through the end of a queue call. */
  lemma NowIdle(k: Kernel, q: nat, room: nat, front: bool, msg: seq<Byte>)
    requires IdleMade(k) && q < |k.obj.queues| && RingShape(k.obj.queues[q])
    requires Members(k, ReadList(q)) && Members(k, WriteList(q))
    ensures IdleMade(ReadNow(k, q, room).k) && IdleMade(WriteNow(k, q, front, msg).k)
  {
    SlotIdle(SetQueue(k, q, RingRead(k.obj.queues[q]).0), q);
    SlotIdle(SetQueue(k, q, RingWrite(k.obj.queues[q], front, msg)), q);
    hide FreeSlot, FillSlot, RingRead, RingWrite;
  }

  lemma ReadNowOK(k: Kernel, q: nat, room: nat)
    requires Settled(k) && OthersOK(k) && QueuesBut(k, q, 1, 0) && k.obj.queues[q].size <= room + WORD
    ensures Members(k, WriteList(q))
    ensures var o := ReadNow(k, q, room);
            var x := k.obj.queues[q];
            && SchedOK(o.k) && ObjectsOK(o.k) && o.k.run == k.run && o.k.now == k.now && o.k.cfg == k.cfg
            && o.k.tcbs[k.run] == k.tcbs[k.run]
            && x.readable + |Flight(k, q, true)| < x.len
            && o.ret == Data(Contents(x, x.readable + |Flight(k, q, true)| + 1)[0])
  {
    MembersOK(k);
    var x := k.obj.queues[q];
    var n := x.readable + |Flight(k, q, true)| + 1;
    ReadTakesOldest(x, n);
    var y := RingRead(x).0;
    QueueSet(k, q, y, 1, 0, 0, 1);
    FreeSlotOK(SetQueue(k, q, y), q);
    assert |x.slots[x.head]| + WORD <= x.size;
  }

  /** A writer that holds a promise, by counter or by wake-up, fills an empty slot. */
  lemma WriteNowOK(k: Kernel, q: nat, front: bool, msg: seq<Byte>)
    requires Settled(k) && OthersOK(k) && QueuesBut(k, q, 0, 1) && |msg| + WORD <= k.obj.queues[q].size
    ensures Members(k, ReadList(q))
    ensures var o := WriteNow(k, q, front, msg);
            && SchedOK(o.k) && ObjectsOK(o.k) && o.k.run == k.run && o.k.now == k.now && o.k.cfg == k.cfg
            && o.k.tcbs[k.run] == k.tcbs[k.run] && o.ret == Ok
  {
    MembersOK(k);
    var x := k.obj.queues[q];
    WriteAdds(x, x.readable + |Flight(k, q, true)|, front, msg);
    var y := RingWrite(x, front, msg);
    QueueSet(k, q, y, 0, 1, 1, 0);
    FillSlotOK(SetQueue(k, q, y), q);
  }

  // ---- The queue calls ----

  lemma QueueBut(k: Kernel, q: nat)
    requires KernelOK(k) && q < |k.obj.queues| && k.obj.queues[q].used
    ensures QueuesBut(k, q, 0, 0) && OthersOK(k)
  {
    assert QueueOK(k, q);
  }

  lemma QueueReady(k: Kernel, q: nat)
    requires KernelOK(k)
    ensures Ready(k, q)
  {
    SoundReady(k, q);
  }

  lemma SoundReady(k: Kernel, q: nat)
    requires SchedOK(k) && ObjectsOK(k)
    ensures Ready(k, q)
  {
    MembersOK(k);
    assert QueueOK(k, q);
  }

  lemma TakeReadable(k: Kernel, q: nat, room: nat)
    requires KernelOK(k) && q < |k.obj.queues| && k.obj.queues[q].used && k.obj.queues[q].readable > 0
    requires k.obj.queues[q].size <= room + WORD
    ensures var k1 := SetQueue(k, q, k.obj.queues[q].(readable := k.obj.queues[q].readable - 1));
            && RingShape(k1.obj.queues[q]) && Members(k1, WriteList(q))
            && CallOK(k, ReadNow(k1, q, room))
  {
    QueueBut(k, q);
    SettledSwitchable(k);
    var x := k.obj.queues[q];
    var k1 := SetQueue(k, q, x.(readable := x.readable - 1));
    QueueSet(k, q, x.(readable := x.readable - 1), 0, 0, 1, 0);
    ReadNowOK(k1, q, room);
    MembersOK(k1);
    NowIdle(k1, q, room, true, []);
    hide ReadNow, WriteNow, SchedOK, ObjectsOK, QueuesBut, OthersOK;
  }

  lemma TakeWritable(k: Kernel, q: nat, front: bool, msg: seq<Byte>)
    requires KernelOK(k) && q < |k.obj.queues| && k.obj.queues[q].used && k.obj.queues[q].writable > 0
    requires |msg| + WORD <= k.obj.queues[q].size
    ensures var k1 := SetQueue(k, q, k.obj.queues[q].(writable := k.obj.queues[q].writable - 1));
            && RingShape(k1.obj.queues[q]) && Members(k1, ReadList(q))
            && CallOK(k, WriteNow(k1, q, front, msg))
  {
    QueueBut(k, q);
    SettledSwitchable(k);
    var x := k.obj.queues[q];
    var k1 := SetQueue(k, q, x.(writable := x.writable - 1));
    QueueSet(k, q, x.(writable := x.writable - 1), 0, 0, 0, 1);
    WriteNowOK(k1, q, front, msg);
    MembersOK(k1);
    NowIdle(k1, q, 0, front, msg);
    hide ReadNow, WriteNow, SchedOK, ObjectsOK, QueuesBut, OthersOK;
  }

  lemma ReadCases(k: Kernel, q: nat, room: nat, timeout: nat, inInt: bool)
    requires Ready(k, q)
    ensures var o := Read(k, q, room, timeout, inInt);
            || (o.k == k && o.ret.Fail?)
            || (o.ret == Waiting && timeout > 0 && !inInt && o.k == Wait(k, ReadCall(q, room), timeout))
            || (&& q < |k.obj.queues| && k.obj.queues[q].used && k.obj.queues[q].readable > 0
                && k.obj.queues[q].size <= room + WORD
                && o == ReadNow(SetQueue(k, q, k.obj.queues[q].(readable := k.obj.queues[q].readable - 1)), q, room))
  {
  }

  lemma WriteCases(k: Kernel, q: nat, front: bool, msg: seq<Byte>, timeout: nat, inInt: bool)
    requires Ready(k, q)
    ensures var o := Write(k, q, front, msg, timeout, inInt);
            if o.ret.Fail? then o.k == k
            else if o.ret == Waiting then timeout > 0 && !inInt && o.k == Wait(k, WriteCall(q, front, msg), timeout)
            else
              && q < |k.obj.queues| && k.obj.queues[q].used && k.obj.queues[q].writable > 0
              && |msg| + WORD <= k.obj.queues[q].size
              && var k1 := SetQueue(k, q, k.obj.queues[q].(writable := k.obj.queues[q].writable - 1));
                 o == WriteNow(k1, q, front, msg)
  {
  }

  lemma ReadOK(k: Kernel, q: nat, room: nat, timeout: nat, inInt: bool)
    requires KernelOK(k) && (timeout > 0 && !inInt ==> k.run != k.cfg.idle && k.tcbs[k.run].call.NoCall?)
    ensures Ready(k, q)
    ensures CallOK(k, Read(k, q, room, timeout, inInt))
  {
    QueueReady(k, q);
    var o := Read(k, q, room, timeout, inInt);
    if o.ret.Fail? {
      Unchanged(k, o);
    } else {
      var x := k.obj.queues[q];
      if x.readable == 0 {
        WaitCallOK(k, ReadCall(q, room), timeout, o);
      } else {
        TakeReadable(k, q, room);
      }
    }
  }

  lemma WriteOK(k: Kernel, q: nat, front: bool, msg: seq<Byte>, timeout: nat, inInt: bool)
    requires KernelOK(k) && (timeout > 0 && !inInt ==> k.run != k.cfg.idle && k.tcbs[k.run].call.NoCall?)
    ensures Ready(k, q)
    ensures CallOK(k, Write(k, q, front, msg, timeout, inInt))
  {
    QueueReady(k, q);
    var o := Write(k, q, front, msg, timeout, inInt);
    if o.ret.Fail? {
      Unchanged(k, o);
    } else {
      var x := k.obj.queues[q];
      if x.writable == 0 {
        WaitCallOK(k, WriteCall(q, front, msg), timeout, o);
      } else {
        TakeWritable(k, q, front, msg);
      }
    }
  }

  /** No task has anything to do with an unused queue. */
  lemma NoClaims(k: Kernel, q: nat, t: Tid, size: nat)
    requires SchedOK(k) && ObjectsOK(k) && t < k.cfg.tasks
    requires At(k.lists, ReadList(q)) == [] && At(k.lists, WriteList(q)) == []
    requires Flight(k, q, true) == {} && Flight(k, q, false) == {}
    ensures CallFits(k.tcbs[t], q, size)
  {
    assert TaskOK(k, t);
    assert t !in Flight(k, q, true) && t !in Flight(k, q, false);
    assert !On(k, ReadList(q), t) && !On(k, WriteList(q), t);
  }

  lemma QueueStepKept(k: Kernel, q: nat, x: Queue, free: seq<nat>, o: Out)
    requires SchedOK(k) && ObjectsOK(k) && q < |k.obj.queues| && o.ret != Waiting
    requires o.k == SetQueue(k.(obj := k.obj.(queueFree := free)), q, x)
    requires At(k.lists, ReadList(q)) == [] && At(k.lists, WriteList(q)) == []
    requires Flight(k, q, true) == {} && Flight(k, q, false) == {}
    requires x.used ==> UsedQueueOK(x, 0, 0, [], [])
    requires NoDup(free)
    requires forall i: nat ::
               i in free <==> i < |k.obj.queues| && (if i == q then !x.used else !k.obj.queues[i].used)
    ensures Kept(k, o)
  {
    SameTasksOK(k, o.k);
    SameEvents(k, o.k);
    SameMuxes(k, o.k);
    forall p: nat ensures QueueOK(o.k, p) {
      assert QueueOK(k, p);
      FlightSame(k, o.k, p, true);
      FlightSame(k, o.k, p, false);
      if p == q && x.used {
        forall t | 0 <= t < k.cfg.tasks ensures CallFits(o.k.tcbs[t], q, x.size) {
          NoClaims(k, q, t, x.size);
        }
      }
    }
  }

  lemma QueueStepOK(k: Kernel, q: nat, x: Queue, free: seq<nat>, o: Out)
    requires KernelOK(k) && q < |k.obj.queues| && o.ret != Waiting
    requires o.k == SetQueue(k.(obj := k.obj.(queueFree := free)), q, x)
    requires At(k.lists, ReadList(q)) == [] && At(k.lists, WriteList(q)) == []
    requires Flight(k, q, true) == {} && Flight(k, q, false) == {}
    requires x.used ==> UsedQueueOK(x, 0, 0, [], [])
    requires NoDup(free)
    requires forall i: nat ::
               i in free <==> i < |k.obj.queues| && (if i == q then !x.used else !k.obj.queues[i].used)
    ensures CallOK(k, o)
  {
    QueueStepKept(k, q, x, free, o);
    KeptGoes(k, o);
    hide Kept, CallOK, KernelOK, UsedQueueOK, Flight;
  }

  lemma CreateQueueKept(k: Kernel, len: nat, maxMsg: nat, memory: bool)
    requires SchedOK(k) && ObjectsOK(k)
    ensures Kept(k, Create(k, len, maxMsg, memory))
  {
    var o := Create(k, len, maxMsg, memory);
    if o.ret.Id? {
      var q := k.obj.queueFree[0];
      assert q in k.obj.queueFree;
      assert QueueOK(k, q);
      FreeListTaken(k.obj.queueFree);
      QueueStepKept(k, q, o.k.obj.queues[q], k.obj.queueFree[1..], o);
    }
  }

  lemma CreateQueueOK(k: Kernel, len: nat, maxMsg: nat, memory: bool)
    requires KernelOK(k)
    ensures CallOK(k, Create(k, len, maxMsg, memory))
  {
    CreateQueueKept(k, len, maxMsg, memory);
    KeptGoes(k, Create(k, len, maxMsg, memory));
    hide Kept, CallOK, KernelOK;
  }

  /** A queue can be deleted exactly when nobody waits for it and no woken operation on it is unfinished. */
  lemma DeletableIff(k: Kernel, q: nat)
    requires KernelOK(k)
    ensures Delete(k, q).ret == Ok <==>
              && q < |k.obj.queues| && k.obj.queues[q].used
              && At(k.lists, ReadList(q)) == [] && At(k.lists, WriteList(q)) == []
              && Flight(k, q, true) == {} && Flight(k, q, false) == {}
  {
    assert QueueOK(k, q);
  }

  lemma DeleteQueueOK(k: Kernel, q: nat)
    requires KernelOK(k)
    ensures CallOK(k, Delete(k, q))
  {
    var o := Delete(k, q);
    if o.ret.Fail? {
      Unchanged(k, o);
    } else {
      DeletableIff(k, q);
      QueueStepOK(k, q, k.obj.queues[q].(used := false), [q] + k.obj.queueFree, o);
    }
  }
}
