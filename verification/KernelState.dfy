/** The state that the scheduler and the blocking primitives share. */
module KernelState {
  import opened Sequences
  import opened Deadlines

  type Tid = nat
  newtype Byte = x: int | 0 <= x < 256

  /** Every list a task's `pendList` node can be linked into. */
  datatype ListId =
    | FreeList
    | RecycleList
    | ReadyList(prio: nat)
    | SemList(sem: nat)
    | MuxList(mux: nat)
    | ReadList(queue: nat)
    | WriteList(queue: nat)
    | EventList(event: nat)
  {
    predicate IsWait() {
      SemList? || MuxList? || ReadList? || WriteList? || EventList?
    }
  }

  type Lists = map<ListId, seq<Tid>>

  function At(m: Lists, l: ListId): seq<Tid> {
    if l in m then m[l] else []
  }

  /** The bits of `taskStatus`. */
  datatype Flags = Flags(unused: bool, suspend: bool, ready: bool, pend: bool,
                         running: bool, delay: bool, timeout: bool, pendTime: bool)

  const NO_FLAGS := Flags(false, false, false, false, false, false, false, false)

  /** The kernel call a task is inside of: what its stack holds while it waits. */
  datatype Call =
    | NoCall
    | SemCall(sem: nat)
    | MuxCall(mux: nat)
    | ReadCall(queue: nat, room: nat)
    | WriteCall(queue: nat, front: bool, msg: seq<Byte>)
    | EventCall(event: nat, mask: bv32, mode: bv32)

  function WaitListOf(c: Call): ListId {
    match c
    case NoCall => FreeList
    case SemCall(s) => SemList(s)
    case MuxCall(m) => MuxList(m)
    case ReadCall(q, _) => ReadList(q)
    case WriteCall(q, _, _) => WriteList(q)
    case EventCall(e, _, _) => EventList(e)
  }

  datatype Tcb = Tcb(st: Flags, prio: nat, slice: int, start: nat, waitTicks: nat,
                     eventMask: bv32, eventMode: bv32, call: Call)

  datatype Sem = Sem(used: bool, count: nat, max: nat)
  datatype Mux = Mux(used: bool, count: nat, owner: Option<Tid>, prio: nat)
  datatype Queue = Queue(used: bool, len: nat, size: nat, readable: nat, writable: nat,
                         head: nat, tail: nat, slots: seq<seq<Byte>>)
  datatype Event = Event(ready: bool, bits: bv32)

  /** Configuration: `tasks` is g_taskMaxNum, the slice bounds and the tick are in cycles. */
  datatype Config = Config(tasks: nat, idle: Tid, swtmr: Tid,
                           sliceMin: int, sliceFull: int, cyclesPerTick: nat)

  /** The blocking objects; a free list holds the identifiers of the unused ones. */
  datatype Objects = Objects(sems: seq<Sem>, semFree: seq<nat>,
                             muxes: seq<Mux>, muxFree: seq<nat>,
                             queues: seq<Queue>, queueFree: seq<nat>,
                             events: seq<Event>)

  /** `tcbs[cfg.tasks]` is the stand-in control block that replaces a running task that deletes itself. */
  datatype Kernel = Kernel(cfg: Config, tcbs: seq<Tcb>, lists: Lists, timers: seq<Entry>,
                           run: Tid, lock: nat, now: nat, obj: Objects)

  const LOWEST := 31
  const WAIT_FOREVER := 0xFFFF_FFFF

  ghost predicate Shape(k: Kernel) {
    && |k.tcbs| == k.cfg.tasks + 1
    && k.cfg.idle < k.cfg.tasks
    && k.run <= k.cfg.tasks
    && k.cfg.sliceMin < k.cfg.sliceFull
  }

  predicate On(k: Kernel, l: ListId, t: Tid) {
    t in At(k.lists, l)
  }

  /** Everything on list `l` is a control block. */
  ghost predicate Members(k: Kernel, l: ListId) {
    forall t :: t in At(k.lists, l) ==> t < |k.tcbs|
  }

  predicate Timed(k: Kernel, t: Tid) {
    Linked(k.timers, t)
  }

  // ---- Where a task's list node belongs ----

  /** A task with control block `c` may be on list `l`. */
  predicate Home(l: ListId, c: Tcb, idle: bool) {
    match l
    case FreeList => c.st.unused
    case RecycleList => c.st.unused
    case ReadyList(p) => c.st.ready && !idle && p == c.prio
    case _ => c.st.pend && l == WaitListOf(c.call)
  }

  /** The status words a task can have; `waiting` is what a task gives up the processor for. */
  predicate FlagsOK(c: Tcb, idle: bool) {
    var f := c.st;
    && (f.unused ==> f == NO_FLAGS.(unused := true) && c.call.NoCall?)
    && (f.ready ==> !f.suspend && !f.pend && !f.delay && !f.pendTime && !f.running)
    && (f.pend ==> !f.delay && !f.timeout && !c.call.NoCall?)
    && (f.pendTime ==> f.pend)
    && (f.delay ==> c.call.NoCall?)
    && (f.timeout ==> !c.call.NoCall?)
    && (f.running || f.unused || f.ready || f.pend || f.delay || f.suspend)
    && (idle ==> !f.suspend && !f.pend && !f.delay && c.call.NoCall?)
    && (f.unused || c.prio <= LOWEST)
  }

  ghost predicate Placed(k: Kernel, t: Tid)
    requires Shape(k) && t < k.cfg.tasks
  {
    var c := k.tcbs[t];
    && (forall l :: On(k, l, t) ==> Home(l, c, t == k.cfg.idle))
    && (c.st.unused ==> On(k, FreeList, t) != On(k, RecycleList, t))
    && (c.st.ready && t != k.cfg.idle ==> On(k, ReadyList(c.prio), t))
    && (c.st.pend ==> On(k, WaitListOf(c.call), t))
    && (Timed(k, t) <==> t != k.run && (c.st.delay || c.st.pendTime))
  }

  ghost predicate TaskOK(k: Kernel, t: Tid)
    requires Shape(k) && t < k.cfg.tasks
  {
    var c := k.tcbs[t];
    && Placed(k, t)
    && FlagsOK(c, t == k.cfg.idle)
    && (c.st.running <==> t == k.run)
    && (c.st.ready && t != k.cfg.idle ==> c.slice > k.cfg.sliceMin)
    && c.start <= k.now
  }

  ghost predicate ListsOK(k: Kernel)
    requires Shape(k)
  {
    && (forall l :: NoDup(At(k.lists, l)))
    && (forall l, t: Tid :: On(k, l, t) ==> t < k.cfg.tasks)
    && Sorted(k.timers) && UniqueIds(k.timers)
    && (forall t: Tid :: Timed(k, t) ==> t < k.cfg.tasks)
  }

  /** Holds inside a kernel call too, after the running task has recorded what it waits for. */
  ghost predicate SchedOK(k: Kernel) {
    && Shape(k)
    && ListsOK(k)
    && (forall t :: 0 <= t < k.cfg.tasks ==> TaskOK(k, t))
    && k.tcbs[k.cfg.tasks].start <= k.now
  }

  /** The idle task has been created. */
  predicate IdleMade(k: Kernel) {
    k.cfg.idle < |k.tcbs| && !k.tcbs[k.cfg.idle].st.unused
  }

  /** The running task is a real task and wants to go on. */
  predicate Runnable(k: Kernel)
    requires |k.tcbs| == k.cfg.tasks + 1 && k.run <= k.cfg.tasks
  {
    var f := k.tcbs[k.run].st;
    && k.run < k.cfg.tasks && !f.unused && !f.suspend && !f.ready && !f.pend && !f.delay
    && IdleMade(k)
  }

  /** What holds between kernel calls. */
  ghost predicate Settled(k: Kernel) {
    SchedOK(k) && Runnable(k)
  }

  // ---- Results of kernel calls ----

  datatype Error =
    | TaskIdInvalid | TaskIsIdle | TaskIsSwtmr | TaskNotCreated | TaskAlreadySuspended | TaskNotSuspended
    | TaskSuspendLocked | TaskPriorityError | TaskNoControlBlock | TaskNoMemory | TaskDelayInInterrupt
    | TaskDelayInLock
    | SemInvalid | SemOverflow | SemAllBusy | SemPended | SemPendInInterrupt | SemPendInLock | SemUnavailable
    | SemTimeout
    | MuxInvalid | MuxAllBusy | MuxPended | MuxPendInInterrupt | MuxPendInLock | MuxUnavailable | MuxTimeout
    | QueueInvalid | QueueSizeTooBig | QueueZeroParameter | QueueNoMemory | QueueNoControlBlock | QueueNotCreated
    | QueueZeroSize | QueueInInterrupt | QueueReadTooSmall | QueueWriteTooBig | QueueEmpty | QueueFull
    | QueuePendInLock | QueueTimeout | QueueInTaskUse | QueueInTaskWrite
    | EventNotInitialized | EventMaskInvalid | EventBitInvalid | EventFlagsInvalid | EventReadInInterrupt
    | EventReadInLock | EventTimeout | EventInUse

  /** `Waiting` is no return at all: the caller has given up the processor inside the call. */
  datatype Ret = Ok | Fail(error: Error) | Id(id: nat) | Bits(bits: bv32) | Data(data: seq<Byte>) | Waiting

  /** New state, what the caller gets, and whether the call ends in LOS_Schedule. */
  datatype Out = Out(k: Kernel, ret: Ret, sched: bool)
}
