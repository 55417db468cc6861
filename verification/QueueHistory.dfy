/** Over whole runs a message queue delivers what was sent: in order when every write goes to the tail. */
module QueueHistory {
  import opened KernelState
  import opened Sched
  import opened SchedProofs
  import opened Invariants
  import opened TaskProofs
  import opened Machine
  import opened MachineProofs
  import opened Fates
  import opened Outcomes
  import opened QueueProofs
  import opened MessageQueue
  import Frames

  ghost predicate InUse(k: Kernel, q: nat) {
    Shape(k) && q < |k.obj.queues| && k.obj.queues[q].used && QueueOK(k, q)
  }

  /** The unread messages of queue `q`, oldest first. */
  ghost function Messages(k: Kernel, q: nat): seq<seq<Byte>>
    requires InUse(k, q)
  {
    Contents(k.obj.queues[q], Stored(k, q))
  }

  lemma InUseIn(k: Kernel, q: nat)
    requires InUse(k, q)
    ensures q < |k.obj.queues|
  {
  }

  /** The claims on queue `q` do not move unless the call is an operation on `q`. */
  lemma ClaimsStill(k: Kernel, op: Op, k': Kernel, q: nat)
    requires KernelOK(k) && Shape(k') && k'.cfg == k.cfg && AllFates(op, k, k')
    requires op.TaskDelete? && op.t < k.cfg.tasks ==> Deletable(k, op.t)
    requires (op.QueueRead? || op.QueueWrite?) ==> op.queue != q
    requires op.Finish? ==> var c := k.tcbs[k.run].call; (c.ReadCall? || c.WriteCall?) ==> c.queue != q
    ensures Flight(k', q, true) == Flight(k, q, true)
  {
    forall x | 0 <= x < k.cfg.tasks ensures InFlight(k'.tcbs[x], q, true) <==> InFlight(k.tcbs[x], q, true) {
      assert Fate(op, k, k', x);
      assert TaskOK(k, x);
    }
    FlightSame(k, k', q, true);
  }

  lemma ObjectsInUse(k: Kernel, q: nat)
    requires Shape(k) && ObjectsOK(k) && q < |k.obj.queues| && k.obj.queues[q].used
    ensures InUse(k, q)
  {
    assert QueueOK(k, q);
  }

  /** What the completion of a read or write leaves: waking a task of the other kind moves no claim of its own kind. */
  lemma OwnFlightSame(k: Kernel, k': Kernel, q: nat, reader: bool)
    requires Shape(k) && Shape(k') && k'.cfg == k.cfg
    requires forall x :: 0 <= x < k.cfg.tasks ==>
               || SameCall(k.tcbs[x], k'.tcbs[x])
               || (GrantedNow(k, k', x) && WaitListOf(k.tcbs[x].call) == if reader then WriteList(q) else ReadList(q))
    ensures Flight(k', q, reader) == Flight(k, q, reader)
  {
    forall y | 0 <= y < k.cfg.tasks ensures InFlight(k'.tcbs[y], q, reader) <==> InFlight(k.tcbs[y], q, reader) {
      assert !SameCall(k.tcbs[y], k'.tcbs[y]) ==> GrantedNow(k, k', y);
    }
    FlightSame(k, k', q, reader);
  }

  lemma ReadRecord(k: Kernel, q: nat, room: nat)
    requires q < |k.obj.queues| && RingShape(k.obj.queues[q]) && Members(k, WriteList(q))
    ensures var y := ReadNow(k, q, room).k.obj.queues;
            |y| == |k.obj.queues| && y[q] == RingRead(k.obj.queues[q]).0.(writable := y[q].writable)
  {
  }

  lemma SlotCounts(k: Kernel, q: nat, front: bool, msg: seq<Byte>)
    requires q < |k.obj.queues| && RingShape(k.obj.queues[q]) && Members(k, ReadList(q))
    ensures var y := WriteNow(k, q, front, msg).k.obj.queues;
            var x := RingWrite(k.obj.queues[q], front, msg);
            |y| == |k.obj.queues| && y[q] == x.(readable := y[q].readable)
  {
  }

  /** A completed read: the oldest message is delivered and the others stay as they are. */
  lemma ReadNowMessages(k: Kernel, q: nat, room: nat)
    requires Settled(k) && OthersOK(k) && QueuesBut(k, q, 1, 0) && k.obj.queues[q].size <= room + WORD
    ensures Members(k, WriteList(q))
    ensures var o := ReadNow(k, q, room);
            var x := k.obj.queues[q];
            var n := x.readable + |Flight(k, q, true)| + 1;
            && InUse(o.k, q) && o.ret.Data? && n <= x.len && [o.ret.data] + Messages(o.k, q) == Contents(x, n)
  {
    ReadNowOK(k, q, room);
    var o := ReadNow(k, q, room);
    var x := k.obj.queues[q];
    var n := x.readable + |Flight(k, q, true)| + 1;
    ReadTakesOldest(x, n);
    ReadNowFates(k, q, room);
    OwnFlightSame(k, o.k, q, true);
    ReadRecord(k, q, room);
    hide ReadNow;
    ObjectsInUse(o.k, q);
    assert Contents(o.k.obj.queues[q], n - 1) == Contents(RingRead(x).0, n - 1);
  }

  lemma WriteNowInUse(k: Kernel, q: nat, front: bool, msg: seq<Byte>)
    requires Settled(k) && OthersOK(k) && QueuesBut(k, q, 0, 1) && |msg| + WORD <= k.obj.queues[q].size
    ensures Members(k, ReadList(q)) && RingShape(RingWrite(k.obj.queues[q], front, msg))
    ensures var o := WriteNow(k, q, front, msg);
            && InUse(o.k, q) && o.ret == Ok && o.k.cfg == k.cfg && Flight(o.k, q, false) == Flight(k, q, false)
            && o.k.obj.queues[q] == RingWrite(k.obj.queues[q], front, msg).(readable := o.k.obj.queues[q].readable)
  {
    WriteNowOK(k, q, front, msg);
    var o := WriteNow(k, q, front, msg);
    WriteNowFates(k, q, front, msg);
    OwnFlightSame(k, o.k, q, false);
    SlotCounts(k, q, front, msg);
    hide WriteNow;
    ObjectsInUse(o.k, q);
  }

  /** A completed write adds its message at the end it was aimed at. */
  lemma WriteNowMessages(k: Kernel, q: nat, front: bool, msg: seq<Byte>)
    requires Settled(k) && OthersOK(k) && QueuesBut(k, q, 0, 1) && |msg| + WORD <= k.obj.queues[q].size
    ensures Members(k, ReadList(q))
    ensures var o := WriteNow(k, q, front, msg);
            var x := k.obj.queues[q];
            var n := x.readable + |Flight(k, q, true)|;
            && InUse(o.k, q) && o.ret == Ok && n <= x.len
            && Messages(o.k, q) == if front then [msg] + Contents(x, n) else Contents(x, n) + [msg]
  {
    hide *;
    RoomToWrite(k, q);
    WriteNowInUse(k, q, front, msg);
    var x := k.obj.queues[q];
    var n := x.readable + |Flight(k, q, true)|;
    var k' := WriteNow(k, q, front, msg).k;
    InUseIn(k', q);
    RecordWritten(x, k'.obj.queues[q], n, front, msg);
    MessagesAre(k', q);
    StoredAfterWrite(k, k', q);
  }

  lemma MessagesAre(k: Kernel, q: nat)
    requires InUse(k, q)
    ensures Shape(k) && q < |k.obj.queues| && RingShape(k.obj.queues[q])
    ensures Stored(k, q) == k.obj.queues[q].readable + |Flight(k, q, true)| <= k.obj.queues[q].len
    ensures Messages(k, q) == Contents(k.obj.queues[q], Stored(k, q))
  {
  }

  lemma RoomToWrite(k: Kernel, q: nat)
    requires Settled(k) && QueuesBut(k, q, 0, 1)
    ensures Shape(k) && q < |k.obj.queues|
    ensures var x := k.obj.queues[q];
            var n := x.readable + |Flight(k, q, true)|;
            RingShape(x) && n < x.len && x.tail == Wrap(x.head + n, x.len)
  {
  }

  lemma RingKeepsSize(x: Queue, front: bool, msg: seq<Byte>)
    requires RingShape(x)
    ensures RingWrite(x, front, msg).len == x.len && RingWrite(x, front, msg).writable == x.writable
  {
  }

  lemma RecordWritten(x: Queue, y: Queue, n: nat, front: bool, msg: seq<Byte>)
    requires RingShape(x) && n < x.len && x.tail == Wrap(x.head + n, x.len)
    requires y == RingWrite(x, front, msg).(readable := y.readable)
    ensures RingShape(y) && y.len == x.len && y.writable == x.writable
    ensures Contents(y, n + 1) == if front then [msg] + Contents(x, n) else Contents(x, n) + [msg]
  {
    hide *;
    WriteAdds(x, n, front, msg);
    RingKeepsSize(x, front, msg);
    SameContents(y, RingWrite(x, front, msg), n + 1);
  }

  lemma SameContents(x: Queue, y: Queue, n: nat)
    requires RingShape(y) && n <= y.len && x == y.(readable := x.readable)
    ensures RingShape(x) && Contents(x, n) == Contents(y, n)
  {
  }

  /** The messages are what the counters and claims of the other kind leave. */
  lemma StoredAfterWrite(k: Kernel, k': Kernel, q: nat)
    requires Shape(k) && QueuesBut(k, q, 0, 1) && InUse(k', q) && k'.cfg == k.cfg
    requires Flight(k', q, false) == Flight(k, q, false)
    requires k'.obj.queues[q].writable == k.obj.queues[q].writable && k'.obj.queues[q].len == k.obj.queues[q].len
    ensures Stored(k', q) == k.obj.queues[q].readable + |Flight(k, q, true)| + 1
  {
  }

  /** What a call did to queue `q`, as its caller sees it. */
  datatype DataEvent = Quiet | Put(front: bool, msg: seq<Byte>) | Take(msg: seq<Byte>)

  function EventOf(k: Kernel, op: Op, ret: Ret, q: nat): DataEvent
    requires k.run < |k.tcbs|
  {
    match op
    case QueueRead(p, _, _) => if p == q && ret.Data? then Take(ret.data) else Quiet
    case QueueWrite(p, front, msg, _) => if p == q && ret == Ok then Put(front, msg) else Quiet
    case Finish =>
      (match k.tcbs[k.run].call
       case ReadCall(p, _) => if p == q && ret.Data? then Take(ret.data) else Quiet
       case WriteCall(p, front, msg) => if p == q && ret == Ok then Put(front, msg) else Quiet
       case _ => Quiet)
    case _ => Quiet
  }

  predicate Explains(e: DataEvent, before: seq<seq<Byte>>, after: seq<seq<Byte>>) {
    match e
    case Quiet => after == before
    case Put(front, msg) => after == if front then [msg] + before else before + [msg]
    case Take(msg) => [msg] + after == before
  }

  /** What call `op` has done to the messages of `q` is what its caller sees. */
  ghost predicate Explained(k: Kernel, op: Op, o: Out, q: nat) {
    && InUse(k, q) && k.run < |k.tcbs| && InUse(o.k, q)
    && Explains(EventOf(k, op, o.ret, q), Messages(k, q), Messages(o.k, q))
  }

  /** The state in which a caller has taken one of the counted messages, or one of the counted slots. */
  lemma TakeOne(k: Kernel, q: nat, x: Queue, reader: bool)
    requires KernelOK(k) && InUse(k, q)
    requires if reader then k.obj.queues[q].readable > 0
             && x == k.obj.queues[q].(readable := k.obj.queues[q].readable - 1)
             else k.obj.queues[q].writable > 0 && x == k.obj.queues[q].(writable := k.obj.queues[q].writable - 1)
    ensures var k1 := SetQueue(k, q, x);
            && Settled(k1) && OthersOK(k1) && QueuesBut(k1, q, if reader then 1 else 0, if reader then 0 else 1)
            && Flight(k1, q, true) == Flight(k, q, true)
            && RingShape(x) && Stored(k, q) <= x.len && Contents(x, Stored(k, q)) == Messages(k, q)
  {
    QueueBut(k, q);
    QueueSet(k, q, x, 0, 0, if reader then 1 else 0, if reader then 0 else 1);
    FlightSame(k, SetQueue(k, q, x), q, true);
    assert QueueOK(k, q);
    assert Contents(x, Stored(k, q)) == Contents(k.obj.queues[q], Stored(k, q));
  }

  lemma ReadMessages(k: Kernel, q: nat, room: nat, timeout: nat, inInt: bool)
    requires KernelOK(k) && InUse(k, q)
    ensures Ready(k, q)
    ensures var o := Read(k, q, room, timeout, inInt);
            || (o.k == k && o.ret.Fail?)
            || (o.ret == Waiting && timeout > 0 && !inInt && o.k == Wait(k, ReadCall(q, room), timeout))
            || (o.ret.Data? && InUse(o.k, q) && [o.ret.data] + Messages(o.k, q) == Messages(k, q))
  {
    QueueReady(k, q);
    var x := k.obj.queues[q];
    ReadCases(k, q, room, timeout, inInt);
    hide Read;
    if x.readable > 0 && x.size <= room + WORD {
      TakeOne(k, q, x.(readable := x.readable - 1), true);
      ReadNowMessages(SetQueue(k, q, x.(readable := x.readable - 1)), q, room);
    }
  }

  lemma WriteMessages(k: Kernel, q: nat, front: bool, msg: seq<Byte>, timeout: nat, inInt: bool)
    requires KernelOK(k) && InUse(k, q)
    ensures Ready(k, q)
    ensures var o := Write(k, q, front, msg, timeout, inInt);
            || (o.k == k && o.ret.Fail?)
            || (o.ret == Waiting && timeout > 0 && !inInt && o.k == Wait(k, WriteCall(q, front, msg), timeout))
            || (o.ret == Ok && InUse(o.k, q)
                && Messages(o.k, q) == if front then [msg] + Messages(k, q) else Messages(k, q) + [msg])
  {
    hide *;
    QueueReady(k, q);
    MessagesAre(k, q);
    var x, o := k.obj.queues[q], Write(k, q, front, msg, timeout, inInt);
    WriteCases(k, q, front, msg, timeout, inInt);
    if o.ret != Waiting && !o.ret.Fail? {
      var y := x.(writable := x.writable - 1);
      TakeOne(k, q, y, false);
      SetQueueIs(k, q, y);
      WriteNowMessages(SetQueue(k, q, y), q, front, msg);
    }
  }

  lemma SetQueueIs(k: Kernel, q: nat, x: Queue)
    requires q < |k.obj.queues|
    ensures SetQueue(k, q, x).obj.queues == k.obj.queues[q := x] && SetQueue(k, q, x).tcbs == k.tcbs
  {
  }

  lemma FinishReadMessages(k: Kernel, q: nat)
    requires KernelOK(k) && InUse(k, q) && (forall p :: Ready(k, p))
    requires k.tcbs[k.run].call.ReadCall? && k.tcbs[k.run].call.queue == q && !k.tcbs[k.run].st.timeout
    ensures var o := FinishCall(k);
            InUse(o.k, q) && o.ret.Data? && [o.ret.data] + Messages(o.k, q) == Messages(k, q)
  {
    hide *;
    RunInRange(k);
    RunInFlight(k, q, true);
    BackPromise(k, q, true);
    BackFlight(k, q, true);
    MessagesAre(k, q);
    FinishIsOperation(k, q);
    ReadNowMessages(Back(k), q, k.tcbs[k.run].call.room);
  }

  lemma FinishWriteMessages(k: Kernel, q: nat)
    requires KernelOK(k) && InUse(k, q) && (forall p :: Ready(k, p))
    requires k.tcbs[k.run].call.WriteCall? && k.tcbs[k.run].call.queue == q && !k.tcbs[k.run].st.timeout
    ensures var o := FinishCall(k);
            var c := k.tcbs[k.run].call;
            && InUse(o.k, q) && o.ret == Ok
            && Messages(o.k, q) == if c.front then [c.msg] + Messages(k, q) else Messages(k, q) + [c.msg]
  {
    hide *;
    RunInRange(k);
    RunInFlight(k, q, false);
    BackPromise(k, q, false);
    BackFlight(k, q, false);
    MessagesAre(k, q);
    FinishIsOperation(k, q);
    WriteNowMessages(Back(k), q, k.tcbs[k.run].call.front, k.tcbs[k.run].call.msg);
  }

  lemma RunInFlight(k: Kernel, q: nat, reader: bool)
    requires KernelOK(k) && !k.tcbs[k.run].st.timeout
    requires var c := k.tcbs[k.run].call; (if reader then c.ReadCall? else c.WriteCall?) && c.queue == q
    ensures InFlight(k.tcbs[k.run], q, reader)
  {
    assert TaskOK(k, k.run);
  }

  lemma FinishIsOperation(k: Kernel, q: nat)
    requires k.run < |k.tcbs| && InUse(k, q) && (forall p :: Ready(k, p)) && !k.tcbs[k.run].st.timeout
    requires (k.tcbs[k.run].call.ReadCall? || k.tcbs[k.run].call.WriteCall?) && k.tcbs[k.run].call.queue == q
    ensures Back(k).obj == k.obj && RingShape(k.obj.queues[q]) && Members(Back(k), WriteList(q))
            && Members(Back(k), ReadList(q))
    ensures var c := k.tcbs[k.run].call;
            && (CallFits(k.tcbs[k.run], q, k.obj.queues[q].size) ==>
                  if c.ReadCall? then k.obj.queues[q].size <= c.room + WORD else |c.msg| + WORD <= k.obj.queues[q].size)
            && FinishCall(k) == if c.ReadCall? then ReadNow(Back(k), q, c.room)
               else WriteNow(Back(k), q, c.front, c.msg)
  {
    assert Ready(k, q);
    hide ReadNow, WriteNow;
  }

  /** A call that is not a completed operation on `q` leaves its messages alone. */
  lemma SameMessages(k: Kernel, k': Kernel, q: nat)
    requires InUse(k, q) && Shape(k') && QueueOK(k', q) && k'.cfg == k.cfg
    requires q < |k'.obj.queues| && k'.obj.queues[q] == k.obj.queues[q] && Flight(k', q, true) == Flight(k, q, true)
    ensures InUse(k', q) && Messages(k', q) == Messages(k, q)
  {
  }

  lemma WaitKeepsFlight(k: Kernel, call: Call, ticks: nat, q: nat)
    requires KernelOK(k) && k.tcbs[k.run].call.NoCall?
    ensures Shape(Wait(k, call, ticks)) && Flight(Wait(k, call, ticks), q, true) == Flight(k, q, true)
  {
    FlightSame(k, Wait(k, call, ticks), q, true);
  }

  /** The operation that may touch the messages of `q`. */
  predicate Operates(k: Kernel, op: Op, q: nat)
    requires k.run < |k.tcbs|
  {
    || ((op.QueueRead? || op.QueueWrite?) && op.queue == q)
    || (op.Finish? && (k.tcbs[k.run].call.ReadCall? || k.tcbs[k.run].call.WriteCall?) && k.tcbs[k.run].call.queue == q)
  }

  lemma OtherRecord(k: Kernel, op: Op, inInt: bool, q: nat)
    requires InUse(k, q) && KernelOK(k) && Defined(k) && !Operates(k, op, q)
    requires op.QueueDelete? ==> op.queue != q || Do(k, op, inInt).ret.Fail?
    ensures var o := Do(k, op, inInt); q < |o.k.obj.queues| && o.k.obj.queues[q] == k.obj.queues[q]
  {
    hide DoTask, DoSem, DoMux, DoEvent, DoQueue, Defined, KernelOK;
    match ServiceOf(op) {
      case OnTask =>
        if op.Finish? {
          DefinedReady(k);
          Frames.FinishKeeps(k);
          FinishIsTask(k, op, inInt);
        } else {
          Frames.TaskCallsKeepObjects(k, op, inInt);
        }
      case OnSem => Frames.SemCallsKeep(k, op, inInt);
      case OnMux => Frames.MuxCallsKeep(k, op, inInt);
      case OnEvent => Frames.EventCallsKeep(k, op, inInt);
      case OnQueue => OtherQueueRecord(k, op, inInt, q);
    }
  }

  lemma OtherQueueRecord(k: Kernel, op: Op, inInt: bool, q: nat)
    requires InUse(k, q) && KernelOK(k) && Defined(k) && ServiceOf(op) == OnQueue && !Operates(k, op, q)
    requires op.QueueDelete? ==> op.queue != q || DoQueue(k, op, inInt).ret.Fail?
    ensures var o := DoQueue(k, op, inInt); q < |o.k.obj.queues| && o.k.obj.queues[q] == k.obj.queues[q]
  {
    hide ReadNow, WriteNow, Wait;
    if op.QueueCreate? {
      if k.obj.queueFree != [] {
        assert k.obj.queueFree[0] in k.obj.queueFree;
      }
    } else if op.queue != q {
      Frames.QueueCallsKeep(k, op, inInt);
    }
  }

  lemma DoMessages(k: Kernel, op: Op, inInt: bool, q: nat)
    requires InUse(k, q) && KernelOK(k) && OpLegal(k, op, inInt)
    requires !inInt ==> (op.Finish? <==> !k.tcbs[k.run].call.NoCall?)
    ensures Defined(k)
    ensures var o := Do(k, op, inInt);
            (op.QueueDelete? && op.queue == q ==> o.ret.Fail?) ==> Explained(k, op, o, q)
  {
    KernelDefined(k);
    DoOK(k, op, inInt);
    var o := Do(k, op, inInt);
    assert QueueOK(o.k, q);
    if Operates(k, op, q) {
      OperateMessages(k, op, inInt, q);
    } else if op.QueueDelete? && op.queue == q && !o.ret.Fail? {
    } else {
      OtherRecord(k, op, inInt, q);
      DoFates(k, op, inInt);
      ClaimsStill(k, op, o.k, q);
      SameMessages(k, o.k, q);
      NoEvent(k, op, o.ret, q);
    }
  }

  lemma NoEvent(k: Kernel, op: Op, ret: Ret, q: nat)
    requires k.run < |k.tcbs| && !Operates(k, op, q)
    ensures EventOf(k, op, ret, q) == Quiet
  {
  }

  lemma QuietExplained(k: Kernel, op: Op, o: Out, q: nat)
    requires InUse(k, q) && k.run < |k.tcbs| && InUse(o.k, q) && Messages(o.k, q) == Messages(k, q)
    requires !o.ret.Data? && o.ret != Ok
    ensures Explained(k, op, o, q)
  {
    hide InUse, Messages;
  }

  lemma TakeExplained(k: Kernel, op: Op, o: Out, q: nat)
    requires InUse(k, q) && k.run < |k.tcbs| && InUse(o.k, q) && o.ret.Data?
             && [o.ret.data] + Messages(o.k, q) == Messages(k, q)
    requires (op.QueueRead? && op.queue == q)
             || (op.Finish? && k.tcbs[k.run].call.ReadCall? && k.tcbs[k.run].call.queue == q)
    ensures Explained(k, op, o, q)
  {
    hide InUse, Messages;
  }

  lemma PutExplained(k: Kernel, op: Op, o: Out, q: nat, front: bool, msg: seq<Byte>)
    requires InUse(k, q) && k.run < |k.tcbs| && InUse(o.k, q) && o.ret == Ok
    requires Messages(o.k, q) == if front then [msg] + Messages(k, q) else Messages(k, q) + [msg]
    requires || (op.QueueWrite? && op.queue == q && op.front == front && op.msg == msg)
             || (op.Finish? && k.tcbs[k.run].call == WriteCall(q, front, msg))
    ensures Explained(k, op, o, q)
  {
    hide InUse, Messages;
  }

  lemma WaitMessages(k: Kernel, call: Call, ticks: nat, q: nat, o: Out)
    requires KernelOK(k) && InUse(k, q) && k.tcbs[k.run].call.NoCall? && CallOK(k, o) && o.k == Wait(k, call, ticks)
    ensures InUse(o.k, q) && Messages(o.k, q) == Messages(k, q)
  {
    assert QueueOK(o.k, q);
    WaitKeepsFlight(k, call, ticks, q);
    SameMessages(k, o.k, q);
    hide Wait;
  }

  lemma ReadExplained(k: Kernel, q: nat, room: nat, timeout: nat, inInt: bool)
    requires InUse(k, q) && KernelOK(k) && Ready(k, q)
    requires timeout > 0 && !inInt ==> k.tcbs[k.run].call.NoCall?
    requires CallOK(k, Read(k, q, room, timeout, inInt))
    ensures Explained(k, QueueRead(q, room, timeout), Read(k, q, room, timeout, inInt), q)
  {
    hide *;
    var op, o := QueueRead(q, room, timeout), Read(k, q, room, timeout, inInt);
    RunInRange(k);
    ReadMessages(k, q, room, timeout, inInt);
    if o.ret == Waiting {
      WaitMessages(k, ReadCall(q, room), timeout, q, o);
      QuietExplained(k, op, o, q);
    } else if o.ret.Fail? {
      QuietExplained(k, op, o, q);
    } else {
      TakeExplained(k, op, o, q);
    }
  }

  lemma WriteExplained(k: Kernel, q: nat, front: bool, msg: seq<Byte>, timeout: nat, inInt: bool)
    requires InUse(k, q) && KernelOK(k) && Ready(k, q)
    requires timeout > 0 && !inInt ==> k.tcbs[k.run].call.NoCall?
    requires CallOK(k, Write(k, q, front, msg, timeout, inInt))
    ensures Explained(k, QueueWrite(q, front, msg, timeout), Write(k, q, front, msg, timeout, inInt), q)
  {
    hide *;
    var op, o := QueueWrite(q, front, msg, timeout), Write(k, q, front, msg, timeout, inInt);
    RunInRange(k);
    WriteMessages(k, q, front, msg, timeout, inInt);
    if o.ret == Waiting {
      WaitMessages(k, WriteCall(q, front, msg), timeout, q, o);
      QuietExplained(k, op, o, q);
    } else if o.ret.Fail? {
      QuietExplained(k, op, o, q);
    } else {
      PutExplained(k, op, o, q, front, msg);
    }
  }

  lemma OperateMessages(k: Kernel, op: Op, inInt: bool, q: nat)
    requires InUse(k, q) && KernelOK(k) && OpLegal(k, op, inInt) && Defined(k) && Operates(k, op, q)
    requires !inInt ==> (op.Finish? <==> !k.tcbs[k.run].call.NoCall?)
    requires CallOK(k, Do(k, op, inInt))
    ensures Explained(k, op, Do(k, op, inInt), q)
  {
    hide *;
    RunInRange(k);
    DoIsOperation(k, op, inInt, q);
    if op.QueueRead? {
      ReadExplained(k, q, op.room, op.timeout, inInt);
    } else if op.QueueWrite? {
      WriteExplained(k, q, op.front, op.msg, op.timeout, inInt);
    } else {
      FinishExplained(k, q);
    }
  }

  lemma DoIsOperation(k: Kernel, op: Op, inInt: bool, q: nat)
    requires Defined(k) && k.run < |k.tcbs| && Operates(k, op, q)
    ensures forall p :: Ready(k, p)
    ensures || (op.QueueRead? && op.queue == q && Do(k, op, inInt) == Read(k, q, op.room, op.timeout, inInt))
            || (op.QueueWrite? && op.queue == q && Do(k, op, inInt) == Write(k, q, op.front, op.msg, op.timeout, inInt))
            || (op.Finish? && Operates(k, Finish, q) && Do(k, op, inInt) == FinishCall(k))
  {
    DefinedReady(k);
    hide Read, Write, FinishCall, Ready, DoSem, DoMux, DoEvent, DoTask, Do, Defined;
    DoIs(k, op, inInt);
    if op.Finish? {
      DoTaskIs(k, op, inInt);
    }
    assert Ready(k, q);
  }

  lemma FinishExplained(k: Kernel, q: nat)
    requires InUse(k, q) && KernelOK(k) && Operates(k, Finish, q) && (forall p :: Ready(k, p))
    requires CallOK(k, FinishCall(k))
    ensures Explained(k, Finish, FinishCall(k), q)
  {
    hide *;
    RunInRange(k);
    InsideOperation(k, q);
    var c, o := k.tcbs[k.run], FinishCall(k);
    if c.st.timeout {
      FinishTimedOut(k, q);
      QuietExplained(k, Finish, o, q);
    } else if c.call.ReadCall? {
      FinishReadMessages(k, q);
      TakeExplained(k, Finish, o, q);
    } else {
      FinishWriteMessages(k, q);
      PutExplained(k, Finish, o, q, c.call.front, c.call.msg);
    }
  }

  lemma InsideOperation(k: Kernel, q: nat)
    requires k.run < |k.tcbs| && Operates(k, Finish, q)
    ensures var c := k.tcbs[k.run].call; (c.ReadCall? || c.WriteCall?) && c.queue == q
  {
  }

  lemma FinishTimedOut(k: Kernel, q: nat)
    requires InUse(k, q) && KernelOK(k) && Operates(k, Finish, q) && (forall p :: Ready(k, p))
             && k.tcbs[k.run].st.timeout
    ensures var o := FinishCall(k);
            InUse(o.k, q) && o.ret == Fail(QueueTimeout) && Messages(o.k, q) == Messages(k, q)
  {
    BackObjects(k);
    FlightBack(k, q);
    assert Shape(Back(k)) && QueueOK(Back(k), q);
    SameMessages(k, Back(k), q);
    assert FinishCall(k) == Out(Back(k), Fail(QueueTimeout), false);
  }

  lemma FlightBack(k: Kernel, q: nat)
    requires KernelOK(k) && k.tcbs[k.run].st.timeout
    ensures Shape(Back(k)) && Flight(Back(k), q, true) == Flight(k, q, true)
  {
    FlightSame(k, Back(k), q, true);
  }

  // ---- Steps and runs ----

  ghost function StepEvent(k: Kernel, s: Step, q: nat): DataEvent
    requires KernelOK(k) && Legal(k, s)
  {
    if IsOp(s) then
      KernelDefined(k);
      EventOf(k, OpOf(s), Do(k, OpOf(s), s.Interrupt?).ret, q)
    else Quiet
  }

  /** Step `s` does not delete queue `q`. */
  ghost predicate Spares(k: Kernel, s: Step, q: nat)
    requires KernelOK(k)
  {
    KernelDefined(k);
    IsOp(s) && OpOf(s).QueueDelete? && OpOf(s).queue == q ==> Do(k, OpOf(s), s.Interrupt?).ret.Fail?
  }

  lemma SwitchMessages(k: Kernel, k': Kernel, q: nat)
    requires Shape(k) && Shape(k') && SchedProofs.Quiet(k, k') && ObjectsOK(k) && InUse(k, q)
    ensures InUse(k', q) && Messages(k', q) == Messages(k, q)
  {
    QuietObjects(k, k');
    assert QueueOK(k', q);
    FlightSame(k, k', q, true);
    SameMessages(k, k', q);
  }

  lemma StepMessages(k: Kernel, s: Step, q: nat)
    requires KernelOK(k) && Legal(k, s) && InUse(k, q) && Spares(k, s, q)
    ensures InUse(Next(k, s), q)
    ensures Explains(StepEvent(k, s, q), Messages(k, q), Messages(Next(k, s), q))
  {
    match s {
      case Call(op, now) =>
        DoMessages(k, op, false, q);
        DoOK(k, op, false);
        var o := Do(k, op, false);
        if o.sched && o.k.lock == 0 {
          SwitchOK(o.k, now);
          SwitchMessages(o.k, Next(k, s), q);
        }
      case Interrupt(op) =>
        DoMessages(k, op, true, q);
      case PendSV(now) =>
        SettledSwitchable(k);
        SwitchOK(k, now);
        SwitchMessages(k, Next(k, s), q);
    }
  }

  ghost predicate SparesAll(k: Kernel, steps: seq<Step>, q: nat)
    requires KernelOK(k) && LegalRun(k, steps)
    decreases |steps|
  {
    steps == [] || (Spares(k, steps[0], q) && SparesAll(Next(k, steps[0]), steps[1..], q))
  }

  ghost function Log(k: Kernel, steps: seq<Step>, q: nat): seq<DataEvent>
    requires KernelOK(k) && LegalRun(k, steps)
    decreases |steps|
  {
    if steps == [] then [] else [StepEvent(k, steps[0], q)] + Log(Next(k, steps[0]), steps[1..], q)
  }

  function Sent(log: seq<DataEvent>): seq<seq<Byte>> {
    if log == [] then [] else (if log[0].Put? then [log[0].msg] else []) + Sent(log[1..])
  }

  function Delivered(log: seq<DataEvent>): seq<seq<Byte>> {
    if log == [] then [] else (if log[0].Take? then [log[0].msg] else []) + Delivered(log[1..])
  }

  predicate TailOnly(log: seq<DataEvent>) {
    forall i :: 0 <= i < |log| ==> !(log[i].Put? && log[i].front)
  }

  /**
   * First in, first out over every run: with writes to the tail only, the messages delivered are those present
   * at the start followed by those sent, in that order, and what is still unread is the rest.
   */
  lemma {:induction false} FifoOverRuns(k: Kernel, steps: seq<Step>, q: nat)
    requires KernelOK(k) && LegalRun(k, steps) && InUse(k, q) && SparesAll(k, steps, q)
    requires TailOnly(Log(k, steps, q))
    ensures InUse(Run(k, steps), q)
    ensures Messages(k, q) + Sent(Log(k, steps, q)) == Delivered(Log(k, steps, q)) + Messages(Run(k, steps), q)
    decreases |steps|
  {
    if steps == [] {
      assert Messages(k, q) + [] == [] + Messages(k, q);
    } else {
      var k1 := Next(k, steps[0]);
      var log := Log(k, steps, q);
      StepMessages(k, steps[0], q);
      assert log[0] == StepEvent(k, steps[0], q) && log[1..] == Log(k1, steps[1..], q);
      forall i | 0 <= i < |log[1..]| ensures !(log[1..][i].Put? && log[1..][i].front) {
        assert log[1..][i] == log[i + 1];
      }
      FifoOverRuns(k1, steps[1..], q);
      FifoGlue(log[0], Messages(k, q), Messages(k1, q), Sent(log[1..]), Delivered(log[1..]),
               Messages(Run(k, steps), q));
    }
  }

  lemma FifoGlue(e: DataEvent, before: seq<seq<Byte>>, after: seq<seq<Byte>>,
                 sent: seq<seq<Byte>>, got: seq<seq<Byte>>, end: seq<seq<Byte>>)
    requires Explains(e, before, after) && !(e.Put? && e.front) && after + sent == got + end
    ensures before + ((if e.Put? then [e.msg] else []) + sent) == ((if e.Take? then [e.msg] else []) + got) + end
  {
    assert [] + sent == sent && [] + got == got;
    match e {
      case Quiet =>
      case Put(_, msg) => Regroup(before, [msg], sent);
      case Take(msg) =>
        Regroup([msg], after, sent);
        Regroup([msg], got, end);
    }
  }

  lemma Regroup<T>(a: seq<T>, b: seq<T>, c: seq<T>)
    ensures (a + b) + c == a + (b + c)
  {
  }

  /** Whatever ends the writes go to, no message is lost, duplicated or invented. */
  lemma {:induction false} NothingLostOverRuns(k: Kernel, steps: seq<Step>, q: nat)
    requires KernelOK(k) && LegalRun(k, steps) && InUse(k, q) && SparesAll(k, steps, q)
    ensures InUse(Run(k, steps), q)
    ensures multiset(Messages(k, q)) + multiset(Sent(Log(k, steps, q)))
         == multiset(Delivered(Log(k, steps, q))) + multiset(Messages(Run(k, steps), q))
    decreases |steps|
  {
    if steps != [] {
      var k1 := Next(k, steps[0]);
      var log := Log(k, steps, q);
      StepMessages(k, steps[0], q);
      assert log[0] == StepEvent(k, steps[0], q) && log[1..] == Log(k1, steps[1..], q);
      NothingLostOverRuns(k1, steps[1..], q);
      BagGlue(log[0], Messages(k, q), Messages(k1, q), Sent(log[1..]), Delivered(log[1..]), Messages(Run(k, steps), q));
    }
  }

  lemma BagGlue(e: DataEvent, before: seq<seq<Byte>>, after: seq<seq<Byte>>,
                sent: seq<seq<Byte>>, got: seq<seq<Byte>>, end: seq<seq<Byte>>)
    requires Explains(e, before, after) && multiset(after) + multiset(sent) == multiset(got) + multiset(end)
    ensures multiset(before) + multiset((if e.Put? then [e.msg] else []) + sent)
         == multiset((if e.Take? then [e.msg] else []) + got) + multiset(end)
  {
    var put := if e.Put? then [e.msg] else [];
    var got1 := if e.Take? then [e.msg] else [];
    assert multiset(put + sent) == multiset(put) + multiset(sent);
    assert multiset(got1 + got) == multiset(got1) + multiset(got);
    assert multiset(before) + multiset(put) == multiset(got1) + multiset(after) by {
      match e {
        case Quiet =>
        case Put(front, msg) =>
          assert multiset([msg] + before) == multiset{msg} + multiset(before);
          assert multiset(before + [msg]) == multiset(before) + multiset{msg};
        case Take(msg) =>
          assert before == [msg] + after;
          assert multiset([msg] + after) == multiset{msg} + multiset(after);
      }
    }
    BagSum(multiset(before), multiset(put), multiset(got1), multiset(after), multiset(sent), multiset(got),
           multiset(end));
  }

  lemma BagSum<T>(b: multiset<T>, p: multiset<T>, t: multiset<T>, a: multiset<T>, s: multiset<T>, g: multiset<T>,
                  e: multiset<T>)
    requires b + p == t + a && a + s == g + e
    ensures b + (p + s) == (t + g) + e
  {
    assert b + (p + s) == (t + a) + s == t + (g + e);
  }
}
