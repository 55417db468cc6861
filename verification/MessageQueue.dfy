/** kernel/src/los_queue.c: a ring of message slots with a hand-off protocol between readers and writers. */
module MessageQueue {
  import opened KernelState
  import opened Sched

  /** Size of the length word at the end of each slot. */
  const WORD := 4

  function SetQueue(k: Kernel, q: nat, x: Queue): Kernel
    requires q < |k.obj.queues|
  {
    k.(obj := k.obj.(queues := k.obj.queues[q := x]))
  }

  function Create(k: Kernel, len: nat, maxMsg: nat, memory: bool): Out
    requires forall q :: q in k.obj.queueFree ==> q < |k.obj.queues|
  {
    if maxMsg > 0xFFFF - WORD then Out(k, Fail(QueueSizeTooBig), false)
    else if len == 0 || maxMsg == 0 then Out(k, Fail(QueueZeroParameter), false)
    else if !memory then Out(k, Fail(QueueNoMemory), false)
    else if k.obj.queueFree == [] then Out(k, Fail(QueueNoControlBlock), false)
    else
      var q := k.obj.queueFree[0];
      assert q in k.obj.queueFree;
      var x := Queue(true, len, maxMsg + WORD, 0, len, 0, 0, seq(len, _ => []));
      Out(SetQueue(k.(obj := k.obj.(queueFree := k.obj.queueFree[1..])), q, x), Id(q), false)
  }

  function Delete(k: Kernel, q: nat): Out {
    if q >= |k.obj.queues| then Out(k, Fail(QueueInvalid), false)
    else
      var x := k.obj.queues[q];
      if !x.used then Out(k, Fail(QueueNotCreated), false)
      else if At(k.lists, ReadList(q)) != [] || At(k.lists, WriteList(q)) != [] then Out(k, Fail(QueueInTaskUse), false)
      else if x.writable + x.readable != x.len then Out(k, Fail(QueueInTaskWrite), false)
      else Out(SetQueue(k.(obj := k.obj.(queueFree := [q] + k.obj.queueFree)), q, x.(used := false)), Ok, false)
  }

  // ---- The ring: OsQueueBufferOperate ----

  function Up(i: nat, len: nat): nat {
    if i + 1 == len then 0 else i + 1
  }

  function Down(i: nat, len: nat): nat
    requires len > 0
  {
    if i == 0 then len - 1 else i - 1
  }

  predicate RingShape(x: Queue) {
    x.len > 0 && |x.slots| == x.len && x.head < x.len && x.tail < x.len
  }

  function RingRead(x: Queue): (Queue, seq<Byte>)
    requires RingShape(x)
  {
    (x.(head := Up(x.head, x.len)), x.slots[x.head])
  }

  function RingWrite(x: Queue, front: bool, msg: seq<Byte>): Queue
    requires RingShape(x)
  {
    if front then
      var h := Down(x.head, x.len);
      x.(head := h, slots := x.slots[h := msg])
    else x.(tail := Up(x.tail, x.len), slots := x.slots[x.tail := msg])
  }

  // ---- OsQueueOperate after the counter has been taken or the caller has been woken ----

  /** Let the longest waiting writer have the freed slot, or count it. */
  function FreeSlot(k: Kernel, q: nat): (Kernel, bool)
    requires q < |k.obj.queues| && Members(k, WriteList(q))
  {
    var l := At(k.lists, WriteList(q));
    var x := k.obj.queues[q];
    if l != [] then assert l[0] in l; (Wake(k, l[0]), true)
    else (SetQueue(k, q, x.(writable := x.writable + 1)), false)
  }

  function FillSlot(k: Kernel, q: nat): (Kernel, bool)
    requires q < |k.obj.queues| && Members(k, ReadList(q))
  {
    var l := At(k.lists, ReadList(q));
    var x := k.obj.queues[q];
    if l != [] then assert l[0] in l; (Wake(k, l[0]), true)
    else (SetQueue(k, q, x.(readable := x.readable + 1)), false)
  }

  /** memcpy_s refuses a message longer than the caller's buffer and leaves the buffer alone. */
  function Deliver(msg: seq<Byte>, room: nat): Ret {
    if |msg| <= room then Data(msg) else Ok
  }

  function ReadNow(k: Kernel, q: nat, room: nat): Out
    requires q < |k.obj.queues| && RingShape(k.obj.queues[q]) && Members(k, WriteList(q))
  {
    var (x, msg) := RingRead(k.obj.queues[q]);
    var (k1, woke) := FreeSlot(SetQueue(k, q, x), q);
    Out(k1, Deliver(msg, room), woke)
  }

  function WriteNow(k: Kernel, q: nat, front: bool, msg: seq<Byte>): Out
    requires q < |k.obj.queues| && RingShape(k.obj.queues[q]) && Members(k, ReadList(q))
  {
    var (k1, woke) := FillSlot(SetQueue(k, q, RingWrite(k.obj.queues[q], front, msg)), q);
    Out(k1, Ok, woke)
  }

  ghost predicate Ready(k: Kernel, q: nat) {
    && k.run < |k.tcbs|
    && (q < |k.obj.queues| && k.obj.queues[q].used ==>
          RingShape(k.obj.queues[q]) && Members(k, ReadList(q)) && Members(k, WriteList(q)))
  }

  function Read(k: Kernel, q: nat, room: nat, timeout: nat, inInt: bool): Out
    requires Ready(k, q)
  {
    if q >= |k.obj.queues| then Out(k, Fail(QueueInvalid), false)
    else if room == 0 then Out(k, Fail(QueueZeroSize), false)
    else if timeout != 0 && inInt then Out(k, Fail(QueueInInterrupt), false)
    else
      var x := k.obj.queues[q];
      if !x.used then Out(k, Fail(QueueNotCreated), false)
      else if room + WORD < x.size then Out(k, Fail(QueueReadTooSmall), false)
      else if x.readable == 0 then
        if timeout == 0 then Out(k, Fail(QueueEmpty), false)
        else if k.lock != 0 then Out(k, Fail(QueuePendInLock), false)
        else Out(Wait(k, ReadCall(q, room), timeout), Waiting, true)
      else ReadNow(SetQueue(k, q, x.(readable := x.readable - 1)), q, room)
  }

  function Write(k: Kernel, q: nat, front: bool, msg: seq<Byte>, timeout: nat, inInt: bool): Out
    requires Ready(k, q)
  {
    if q >= |k.obj.queues| then Out(k, Fail(QueueInvalid), false)
    else if |msg| == 0 then Out(k, Fail(QueueZeroSize), false)
    else if timeout != 0 && inInt then Out(k, Fail(QueueInInterrupt), false)
    else
      var x := k.obj.queues[q];
      if !x.used then Out(k, Fail(QueueNotCreated), false)
      else if |msg| + WORD > x.size then Out(k, Fail(QueueWriteTooBig), false)
      else if x.writable == 0 then
        if timeout == 0 then Out(k, Fail(QueueFull), false)
        else if k.lock != 0 then Out(k, Fail(QueuePendInLock), false)
        else Out(Wait(k, WriteCall(q, front, msg), timeout), Waiting, true)
      else WriteNow(SetQueue(k, q, x.(writable := x.writable - 1)), q, front, msg)
  }
}
