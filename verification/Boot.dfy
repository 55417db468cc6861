/** Start-up (kernel/src/los_task.c, kernel/src/los_sched.c, kernel/src/los_init.c) and what it gives every run. */
module Boot {
  import opened Sequences
  import opened Deadlines
  import opened KernelState
  import opened Sched
  import opened SchedProofs
  import opened Invariants
  import opened TaskProofs
  import opened Machine
  import opened MachineProofs
  import EventProofs
  import ObjectProofs
  import QueueProofs
  import Semaphore
  import Mutex
  import MessageQueue
  import EventFlags
  import Task

  // ---- OsTaskInit ----

  /** How many objects of each kind the system is configured with. */
  datatype Limits = Limits(sems: nat, muxes: nat, queues: nat, events: nat)

  function Count(n: nat): (s: seq<nat>)
    ensures |s| == n && forall i :: 0 <= i < n ==> s[i] == i
  {
    seq(n, i requires 0 <= i => i)
  }

  const BLANK := Tcb(NO_FLAGS.(unused := true), 0, 0, 0, 0, 0, 0, NoCall)

  const STAND_IN := BLANK.(st := BLANK.st.(running := true), prio := LOWEST + 1)

  /** The lists that have a head. */
  function HeadIds(n: Limits): seq<ListId> {
    [FreeList, RecycleList] + seq(LOWEST + 1, p requires 0 <= p => ReadyList(p))
    + seq(n.sems, s requires 0 <= s => SemList(s)) + seq(n.muxes, m requires 0 <= m => MuxList(m))
    + seq(n.queues, q requires 0 <= q => ReadList(q)) + seq(n.queues, q requires 0 <= q => WriteList(q))
    + seq(n.events, e requires 0 <= e => EventList(e))
  }

  predicate HasHead(l: ListId, n: Limits) {
    match l
    case FreeList => true
    case RecycleList => true
    case ReadyList(p) => p <= LOWEST
    case SemList(s) => s < n.sems
    case MuxList(m) => m < n.muxes
    case ReadList(q) => q < n.queues
    case WriteList(q) => q < n.queues
    case EventList(e) => e < n.events
  }

  lemma Headed(l: ListId, n: Limits)
    ensures l in HeadIds(n) <==> HasHead(l, n)
  {
    var ids := HeadIds(n);
    var muxes := LOWEST + 3 + n.sems;
    var readers := muxes + n.muxes;
    var events := readers + n.queues + n.queues;
    match l {
      case FreeList => assert ids[0] == l;
      case RecycleList => assert ids[1] == l;
      case ReadyList(p) => assert p <= LOWEST ==> ids[2 + p] == l;
      case SemList(s) => assert s < n.sems ==> ids[LOWEST + 3 + s] == l;
      case MuxList(m) => assert m < n.muxes ==> ids[muxes + m] == l;
      case ReadList(q) => assert q < n.queues ==> ids[readers + q] == l;
      case WriteList(q) => assert q < n.queues ==> ids[readers + n.queues + q] == l;
      case EventList(e) => assert e < n.events ==> ids[events + e] == l;
    }
  }

  /** Every block is on the free list, in order. */
  function FirstLists(tasks: nat, n: Limits): Lists {
    map l | l in HeadIds(n) :: if l == FreeList then Count(tasks) else []
  }

  function FirstObjects(n: Limits): Objects {
    Objects(seq(n.sems, _ => Sem(false, 0, 0)), Count(n.sems),
            seq(n.muxes, _ => Mux(false, 0, None, 0)), Count(n.muxes),
            seq(n.queues, _ => Queue(false, 0, 0, 0, 0, 0, 0, [])), Count(n.queues),
            seq(n.events, _ => Event(false, 0)))
  }

  /** Everything unused; the stand-in block plays the running task. */
  function Init(cfg: Config, n: Limits): Kernel {
    Kernel(cfg, seq(cfg.tasks, _ => BLANK) + [STAND_IN], FirstLists(cfg.tasks, n), [], cfg.tasks, 0, 0, FirstObjects(n))
  }

  /** `cfg.idle` is the identifier that the idle task gets when it is created. */
  ghost predicate GoodConfig(cfg: Config) {
    cfg.idle < cfg.tasks && cfg.sliceMin < cfg.sliceFull
  }

  lemma FirstAt(tasks: nat, n: Limits, l: ListId)
    ensures At(FirstLists(tasks, n), l) == if l == FreeList then Count(tasks) else []
  {
    Headed(FreeList, n);
    hide HeadIds, Count;
  }

  /** The first state in plain words: every block is unused and on the free list, in order. */
  ghost predicate FirstState(k: Kernel, cfg: Config) {
    && k.run == cfg.tasks && k.cfg == cfg && k.timers == [] && k.now == 0 && k.lock == 0
    && |k.tcbs| == cfg.tasks + 1
    && (forall t :: 0 <= t < cfg.tasks ==> k.tcbs[t] == BLANK)
    && k.tcbs[cfg.tasks].start == 0
    && (forall l :: l != FreeList ==> At(k.lists, l) == [])
    && At(k.lists, FreeList) == Count(cfg.tasks)
  }

  lemma InitShape(cfg: Config, n: Limits)
    requires GoodConfig(cfg)
    ensures FirstState(Init(cfg, n), cfg) && Init(cfg, n).obj == FirstObjects(n)
  {
    forall l ensures At(FirstLists(cfg.tasks, n), l) == if l == FreeList then Count(cfg.tasks) else [] {
      FirstAt(cfg.tasks, n, l);
    }
    hide FirstLists, HeadIds, Count, FirstObjects, At;
  }

  lemma FirstTask(k: Kernel, cfg: Config, t: Tid)
    requires GoodConfig(cfg) && FirstState(k, cfg) && t < cfg.tasks
    ensures Shape(k) && TaskOK(k, t)
  {
    hide Count, NoDup, Sorted, UniqueIds;
    var free := Count(cfg.tasks);
    assert free[t] in free;
    assert On(k, FreeList, t);
    assert !Timed(k, t);
  }

  lemma FirstSched(k: Kernel, cfg: Config)
    requires GoodConfig(cfg) && FirstState(k, cfg)
    ensures SchedOK(k)
  {
    forall t | 0 <= t < k.cfg.tasks ensures TaskOK(k, t) {
      FirstTask(k, cfg, t);
    }
    hide TaskOK;
  }

  lemma NothingUsed(k: Kernel, n: Limits)
    requires Shape(k) && (forall t :: 0 <= t < k.cfg.tasks ==> k.tcbs[t].call == NoCall)
    requires forall l :: l != FreeList ==> At(k.lists, l) == []
    requires k.obj == FirstObjects(n)
    ensures ObjectsOK(k)
  {
    hide Flight, EventFlags.Match, EventFlags.ModeOK;
    Unclaimed(k);
    AllFree(n.sems);
    AllFree(n.muxes);
    AllFree(n.queues);
  }

  lemma AllFree(n: nat)
    ensures NoDup(Count(n)) && forall i: nat :: i in Count(n) <==> i < n
  {
    forall i: nat | i < n ensures i in Count(n) {
      assert Count(n)[i] == i;
    }
  }

  lemma Unclaimed(k: Kernel)
    requires Shape(k) && (forall t :: 0 <= t < k.cfg.tasks ==> k.tcbs[t].call == NoCall)
    ensures forall q, r :: Flight(k, q, r) == {}
  {
  }

  // ---- Calls before the scheduler is started ----

  /** What a system sets up before its scheduler runs: tasks, semaphores, mutexes, queues and events. */
  predicate SetsUp(op: Op) {
    op.TaskCreate? || op.TaskCreateOnly? || op.SemCreate? || op.MuxCreate? || op.QueueCreate? || op.EventInit?
  }

  /** Nobody waits, holds a mutex or is to be recycled. */
  ghost predicate Calm(k: Kernel) {
    && (forall l: ListId :: l.IsWait() ==> At(k.lists, l) == [])
    && At(k.lists, RecycleList) == []
    && (forall m :: 0 <= m < |k.obj.muxes| ==> k.obj.muxes[m].count == 0)
  }

  /** The stand-in block plays the running task, and nobody else has run. */
  ghost predicate Preparing(k: Kernel) {
    && SchedOK(k) && ObjectsOK(k) && k.run == k.cfg.tasks && k.lock == 0 && k.now == 0
    && k.tcbs[k.run].st == NO_FLAGS.(unused := true, running := true)
    && Calm(k)
  }

  /** The block of the idle task is left for it. */
  ghost predicate LeavesIdle(k: Kernel, op: Op) {
    op.TaskCreate? || op.TaskCreateOnly? ==> SparesIdle(k, op.prio, op.memory)
  }

  /** A call by the stand-in; the LOS_Schedule at its end does nothing yet. */
  ghost function SetUp(k: Kernel, op: Op): (k': Kernel)
    requires Preparing(k) && SetsUp(op) && LeavesIdle(k, op)
    ensures Preparing(k') && k'.cfg == k.cfg && (IdleMade(k) ==> IdleMade(k'))
  {
    SoundDefined(k);
    SetUpOK(k, op);
    Do(k, op, false).k
  }

  lemma SetUpKept(k: Kernel, op: Op)
    requires SchedOK(k) && ObjectsOK(k) && SetsUp(op) && LeavesIdle(k, op)
    requires forall l: ListId :: l.IsWait() ==> At(k.lists, l) == []
    ensures Defined(k) && Kept(k, Do(k, op, false))
  {
    hide Kept, SchedOK, ObjectsOK, Defined, Do, DoTask, SparesIdle;
    SoundDefined(k);
    SetUpIs(k, op);
    match op {
      case TaskCreateOnly(prio, memory) => CreateOnlyKept(k, prio, memory);
      case TaskCreate(prio, memory) => CreateKept(k, prio, memory);
      case SemCreate(count, max) => ObjectProofs.SemCreateKept(k, count, max);
      case MuxCreate => ObjectProofs.MuxCreateKept(k);
      case QueueCreate(len, maxMsg, memory) => QueueProofs.CreateQueueKept(k, len, maxMsg, memory);
      case EventInit(e) => EventProofs.InitKept(k, e);
    }
  }

  /** Each set-up call, and the function that serves it. */
  lemma SetUpIs(k: Kernel, op: Op)
    requires Defined(k) && SetsUp(op)
    ensures (forall t :: t in At(Task.Recycle(k).lists, FreeList) ==> t < |k.tcbs|)
    ensures (forall s :: s in k.obj.semFree ==> s < |k.obj.sems|)
    ensures (forall m :: m in k.obj.muxFree ==> m < |k.obj.muxes|)
    ensures (forall q :: q in k.obj.queueFree ==> q < |k.obj.queues|)
    ensures op.TaskCreateOnly? ==> Do(k, op, false) == Task.CreateOnly(k, op.prio, op.memory)
    ensures op.TaskCreate? ==> Do(k, op, false) == Task.Create(k, op.prio, op.memory)
    ensures op.SemCreate? ==> Do(k, op, false) == Semaphore.Create(k, op.count, op.max)
    ensures op.MuxCreate? ==> Do(k, op, false) == Mutex.Create(k)
    ensures op.QueueCreate? ==> Do(k, op, false) == MessageQueue.Create(k, op.len, op.maxMsg, op.memory)
    ensures op.EventInit? ==> Do(k, op, false) == EventFlags.Init(k, op.event)
  {
    hide Task.CreateOnly, Task.Create, Task.Recycle, Semaphore.Create, Mutex.Create, MessageQueue.Create,
         EventFlags.Init, DoTask;
    DoIs(k, op, false);
    if ServiceOf(op) == OnTask {
      DoTaskIs(k, op, false);
    }
  }

  lemma CreateCalm(k: Kernel, prio: nat, memory: bool)
    requires Calm(k) && forall t :: t in At(Task.Recycle(k).lists, FreeList) ==> t < |k.tcbs|
    ensures Calm(Task.CreateOnly(k, prio, memory).k) && Calm(Task.Create(k, prio, memory).k)
  {
    CreateOnlyCalm(k, prio, memory);
    var o := Task.CreateOnly(k, prio, memory);
    hide Calm, Task.CreateOnly, EnQueue;
    if o.ret.Id? && o.ret.id < |o.k.tcbs| {
      EnQueueCalm(o.k, o.ret.id);
    }
  }

  lemma CreateOnlyCalm(k: Kernel, prio: nat, memory: bool)
    requires Calm(k) && Members(Task.Recycle(k), FreeList)
    ensures Calm(Task.CreateOnly(k, prio, memory).k)
  {
    CreateOnlyIs(k, prio, memory);
    NoneRecycled(k);
    hide Task.CreateOnly, Task.Recycle, Drop;
  }

  lemma NoneRecycled(k: Kernel)
    requires At(k.lists, RecycleList) == []
    ensures Task.Recycle(k) == k
  {
  }

  lemma EnQueueCalm(k: Kernel, t: Tid)
    requires Calm(k) && t < |k.tcbs|
    ensures Calm(EnQueue(k, t))
  {
  }

  lemma MuxCreateCalm(k: Kernel)
    requires Calm(k) && forall m :: m in k.obj.muxFree ==> m < |k.obj.muxes|
    ensures Calm(Mutex.Create(k).k)
  {
    if k.obj.muxFree != [] {
      assert k.obj.muxFree[0] in k.obj.muxFree;
    }
  }

  lemma SameCalm(k: Kernel, k': Kernel)
    requires Calm(k) && k'.lists == k.lists && k'.obj.muxes == k.obj.muxes
    ensures Calm(k')
  {
  }

  lemma SetUpCalm(k: Kernel, op: Op)
    requires Defined(k) && SetsUp(op) && Calm(k)
    ensures Calm(Do(k, op, false).k)
  {
    hide Do, Calm, Defined, Task.CreateOnly, Task.Create, Mutex.Create;
    SetUpIs(k, op);
    match op {
      case TaskCreateOnly(prio, memory) => CreateCalm(k, prio, memory);
      case TaskCreate(prio, memory) => CreateCalm(k, prio, memory);
      case MuxCreate => MuxCreateCalm(k);
      case SemCreate(_, _) => SameCalm(k, Do(k, op, false).k);
      case QueueCreate(_, _, _) => SameCalm(k, Do(k, op, false).k);
      case EventInit(_) => SameCalm(k, Do(k, op, false).k);
    }
  }

  lemma SetUpOK(k: Kernel, op: Op)
    requires Preparing(k) && SetsUp(op) && LeavesIdle(k, op)
    ensures Defined(k)
    ensures var k' := Do(k, op, false).k; Preparing(k') && k'.cfg == k.cfg && (IdleMade(k) ==> IdleMade(k'))
  {
    hide SchedOK, ObjectsOK, Do, Defined, SparesIdle;
    SetUpKept(k, op);
    SetUpCalm(k, op);
    StandInRange(k);
  }

  lemma StandInRange(k: Kernel)
    requires SchedOK(k)
    ensures |k.tcbs| == k.cfg.tasks + 1
  {
  }

  ghost predicate MaySetUp(k: Kernel, ops: seq<Op>)
    requires Preparing(k)
    decreases |ops|
  {
    ops == [] || (SetsUp(ops[0]) && LeavesIdle(k, ops[0]) && MaySetUp(SetUp(k, ops[0]), ops[1..]))
  }

  ghost function Prepared(k: Kernel, ops: seq<Op>): (k': Kernel)
    requires Preparing(k) && MaySetUp(k, ops)
    ensures Preparing(k') && k'.cfg == k.cfg && (IdleMade(k) ==> IdleMade(k'))
    decreases |ops|
  {
    if ops == [] then k else Prepared(SetUp(k, ops[0]), ops[1..])
  }

  /** Once the idle task exists any set-up call may be made. */
  lemma {:induction false} AnySetUp(k: Kernel, ops: seq<Op>)
    requires Preparing(k) && IdleMade(k) && forall i :: 0 <= i < |ops| ==> SetsUp(ops[i])
    ensures MaySetUp(k, ops)
    decreases |ops|
  {
    if ops != [] {
      if ops[0].TaskCreate? || ops[0].TaskCreateOnly? {
        MadeSpared(k, ops[0].prio, ops[0].memory);
      }
      hide Preparing, SparesIdle;
      AnySetUp(SetUp(k, ops[0]), ops[1..]);
    }
  }

  // ---- OsIdleTaskCreate ----

  /** The block at the head of the free list is the one the idle task is to have. */
  predicate IdleNext(k: Kernel) {
    At(k.lists, FreeList) != [] && At(k.lists, FreeList)[0] == k.cfg.idle
  }

  function CreateIdle(k: Kernel): Kernel
    requires k.cfg.idle < |k.tcbs|
  {
    var t := k.cfg.idle;
    EnQueue(SetTcb(k.(lists := Unlink(k.lists, t)), t, Task.Fresh(k.tcbs[t], LOWEST)), t)
  }

  lemma CreateIdleOK(k: Kernel)
    requires Preparing(k) && IdleNext(k)
    ensures k.cfg.idle < |k.tcbs|
    ensures var k' := CreateIdle(k); Preparing(k') && IdleMade(k') && k'.cfg == k.cfg
  {
    FreeHead(k);
    var t := k.cfg.idle;
    var k1 := k.(lists := Unlink(k.lists, t));
    UnlinkEffect(k, t);
    var c := Task.Fresh(k.tcbs[t], LOWEST);
    var k2 := SetTcb(k1, t, c);
    SetTcbEffect(k1, t, c);
    OthersSameTrans(k, k1, k2, t);
    SchedBut(k, t);
    ReadyOK(k, k2, t);
    LeavesObjects(k, CreateIdle(k), t);
    hide SchedOK, ObjectsOK, FlagsOK, Placed;
  }

  lemma SchedBut(k: Kernel, t: Tid)
    requires SchedOK(k)
    ensures SchedOKBut(k, t)
  {
  }

  // ---- OsSchedStart ----

  function Start(k: Kernel, now: nat): Kernel
    requires Top(k) < |k.tcbs|
  {
    var n := Top(k);
    var c := k.tcbs[n];
    DeQueue(SetTcb(k, n, c.(st := c.st.(running := true), start := now)), n).(run := n, now := now)
  }

  lemma StartIsElect(k: Kernel, now: nat)
    requires Top(k) < |k.tcbs|
    ensures Top(k.(now := now)) == Top(k)
    ensures Start(k, now) == Elect(k.(now := now), Top(k), now)
  {
    SameTop(k, k.(now := now), 0);
    var n := Top(k);
    var c := k.tcbs[n];
    hide Top, Unlink;
    assert k.tcbs[n := c.(st := c.st.(running := true), start := now)][n].prio == c.prio;
  }

  /** The scheduler starts with a most urgent task. */
  lemma StartOK(k: Kernel, now: nat)
    requires Preparing(k) && IdleMade(k)
    ensures Top(k) < k.cfg.tasks < |k.tcbs|
    ensures var k' := Start(k, now); KernelOK(k') && Best(k', k'.run) && k'.cfg == k.cfg && k'.obj == k.obj
  {
    TopIsBest(k);
    var n, k1 := Top(k), k.(now := now);
    ClockOK(k, now);
    hide Start, Top, Elect, SchedOK, ObjectsOK, Best;
    StandInRange(k);
    BestTop(k, n);
    StartIsElect(k, now);
    BestLater(k, now, n);
    ElectOK(k1, n, now);
    ElectKeepsBest(k1, n, now);
    QuietObjects(k1, Elect(k1, n, now));
    Elected(k1, n, now);
  }

  lemma BestTop(k: Kernel, n: Tid)
    requires Shape(k) && Best(k, n)
    ensures n < k.cfg.tasks
  {
  }

  lemma BestLater(k: Kernel, now: nat, n: Tid)
    requires Shape(k) && Best(k, n)
    ensures Best(k.(now := now), n)
  {
  }

  // ---- All of it ----

  /** What is set up before and after the idle task is created, and when the scheduler starts. */
  datatype Setup = Setup(before: seq<Op>, after: seq<Op>, startAt: nat)

  lemma InitOK(cfg: Config, n: Limits)
    requires GoodConfig(cfg)
    ensures Preparing(Init(cfg, n)) && Init(cfg, n).cfg == cfg && !IdleMade(Init(cfg, n))
  {
    var k := Init(cfg, n);
    InitShape(cfg, n);
    FirstSched(k, cfg);
    NothingUsed(k, n);
    hide FirstObjects, FirstLists, SchedOK, ObjectsOK;
  }

  /** The first calls leave the idle task its block; `after` may be any set-up calls. */
  ghost predicate Bootable(cfg: Config, n: Limits, s: Setup) {
    && GoodConfig(cfg)
    && (InitOK(cfg, n);
        MaySetUp(Init(cfg, n), s.before) && IdleNext(Prepared(Init(cfg, n), s.before)))
    && forall i :: 0 <= i < |s.after| ==> SetsUp(s.after[i])
  }

  // ---- Which identifier the idle task gets ----

  /** The call creates a task while `c` of the `tasks` blocks are in use. */
  predicate MakesTask(op: Op, c: nat, tasks: nat) {
    (op.TaskCreate? || op.TaskCreateOnly?) && op.prio < LOWEST && op.memory && c < tasks
  }

  /** How many blocks are in use after the calls. */
  function TasksMade(ops: seq<Op>, c: nat, tasks: nat): nat {
    if ops == [] then c else TasksMade(ops[1..], if MakesTask(ops[0], c, tasks) then c + 1 else c, tasks)
  }

  lemma {:induction false} MadeGrows(ops: seq<Op>, c: nat, tasks: nat)
    ensures TasksMade(ops, c, tasks) >= c
    decreases |ops|
  {
    if ops != [] {
      MadeGrows(ops[1..], if MakesTask(ops[0], c, tasks) then c + 1 else c, tasks);
    }
  }

  /** The first `c` blocks are in use. */
  predicate FreeFrom(k: Kernel, c: nat) {
    c <= k.cfg.tasks && At(k.lists, FreeList) == Count(k.cfg.tasks)[c..]
  }

  lemma TailDrop(n: nat, c: nat)
    requires c < n
    ensures Drop(Count(n)[c..], c) == Count(n)[c + 1..] && Count(n)[c..] != [] && Count(n)[c..][0] == c
  {
    var s := Count(n)[c..];
    DropAt(s, 0);
    assert s[..0] + s[1..] == Count(n)[c + 1..];
  }

  lemma CreateTakes(k: Kernel, op: Op, c: nat)
    requires FreeFrom(k, c) && At(k.lists, RecycleList) == [] && (op.TaskCreate? || op.TaskCreateOnly?)
    requires forall t :: t in At(Task.Recycle(k).lists, FreeList) ==> t < |k.tcbs|
    ensures var k' := if op.TaskCreate? then Task.Create(k, op.prio, op.memory).k
                      else Task.CreateOnly(k, op.prio, op.memory).k;
            k'.cfg == k.cfg && FreeFrom(k', if MakesTask(op, c, k.cfg.tasks) then c + 1 else c)
  {
    assert Task.Recycle(k) == k;
    if c < k.cfg.tasks {
      TailDrop(k.cfg.tasks, c);
      assert [c] + Count(k.cfg.tasks)[c + 1..] == Count(k.cfg.tasks)[c..];
    }
    hide Drop, Count;
  }

  lemma SetUpTakes(k: Kernel, op: Op, c: nat)
    requires Preparing(k) && SetsUp(op) && LeavesIdle(k, op) && FreeFrom(k, c)
    ensures FreeFrom(SetUp(k, op), if MakesTask(op, c, k.cfg.tasks) then c + 1 else c)
  {
    hide *;
    SetUpDoes(k, op);
    SetUpIs(k, op);
    if op.TaskCreate? || op.TaskCreateOnly? {
      CreateTakes(k, op, c);
    } else {
      NoTaskMade(op, c, k.cfg.tasks);
      OtherSetUp(k, op);
      SameFree(k, SetUp(k, op), c);
    }
  }

  lemma SetUpDoes(k: Kernel, op: Op)
    requires Preparing(k) && SetsUp(op) && LeavesIdle(k, op)
    ensures Defined(k) && SetUp(k, op) == Do(k, op, false).k && At(k.lists, RecycleList) == []
  {
    SoundDefined(k);
    hide Do, Defined, SchedOK, ObjectsOK;
  }

  lemma NoTaskMade(op: Op, c: nat, tasks: nat)
    requires !op.TaskCreate? && !op.TaskCreateOnly?
    ensures !MakesTask(op, c, tasks)
  {
  }

  lemma OtherSetUp(k: Kernel, op: Op)
    requires Defined(k) && SetsUp(op) && !op.TaskCreate? && !op.TaskCreateOnly?
    ensures Do(k, op, false).k.lists == k.lists && Do(k, op, false).k.cfg == k.cfg
  {
    hide Do, Defined;
    SetUpIs(k, op);
  }

  lemma SameFree(k: Kernel, k': Kernel, c: nat)
    requires FreeFrom(k, c) && k'.lists == k.lists && k'.cfg == k.cfg
    ensures FreeFrom(k', c)
  {
  }

  lemma LeavesExactly(k: Kernel, op: Op, c: nat)
    requires Preparing(k) && FreeFrom(k, c) && c <= k.cfg.idle < k.cfg.tasks
    ensures LeavesIdle(k, op) <==> !(MakesTask(op, c, k.cfg.tasks) && c == k.cfg.idle)
  {
    assert Task.Recycle(k) == k;
    TailDrop(k.cfg.tasks, c);
    hide Count, SchedOK, ObjectsOK;
  }

  lemma {:induction false} IdleGets(k: Kernel, ops: seq<Op>, c: nat)
    requires Preparing(k) && FreeFrom(k, c) && c <= k.cfg.idle < k.cfg.tasks
    requires forall i :: 0 <= i < |ops| ==> SetsUp(ops[i])
    ensures MaySetUp(k, ops) && IdleNext(Prepared(k, ops)) <==> TasksMade(ops, c, k.cfg.tasks) == k.cfg.idle
    decreases |ops|
  {
    if ops == [] {
      TailDrop(k.cfg.tasks, c);
    } else {
      LeavesExactly(k, ops[0], c);
      var made := MakesTask(ops[0], c, k.cfg.tasks);
      if LeavesIdle(k, ops[0]) {
        SetUpTakes(k, ops[0], c);
        hide Preparing, LeavesIdle, SetUp, FreeFrom, IdleNext;
        IdleGets(SetUp(k, ops[0]), ops[1..], if made then c + 1 else c);
      } else {
        MadeGrows(ops[1..], c + 1, k.cfg.tasks);
      }
    }
  }

  /** Any set-up calls start the system; the idle task's identifier is the number of tasks created before it. */
  lemma BootableExactly(cfg: Config, n: Limits, s: Setup)
    requires GoodConfig(cfg)
    requires forall i :: 0 <= i < |s.before| ==> SetsUp(s.before[i])
    requires forall i :: 0 <= i < |s.after| ==> SetsUp(s.after[i])
    ensures Bootable(cfg, n, s) <==> TasksMade(s.before, 0, cfg.tasks) == cfg.idle
  {
    InitOK(cfg, n);
    InitShape(cfg, n);
    FirstFree(Init(cfg, n), cfg);
    hide Init, Preparing, FirstState, FreeFrom, IdleNext;
    IdleGets(Init(cfg, n), s.before, 0);
  }

  lemma FirstFree(k: Kernel, cfg: Config)
    requires FirstState(k, cfg)
    ensures FreeFrom(k, 0)
  {
  }

  /** The state in which the first task runs. */
  ghost function Booted(cfg: Config, n: Limits, s: Setup): (k: Kernel)
    requires Bootable(cfg, n, s)
    ensures KernelOK(k) && Best(k, k.run) && k.cfg == cfg && k.now == s.startAt
    ensures forall m :: 0 <= m < |k.obj.muxes| ==> k.obj.muxes[m].count == 0
  {
    InitOK(cfg, n);
    var k1 := Prepared(Init(cfg, n), s.before);
    CreateIdleOK(k1);
    var k2 := CreateIdle(k1);
    AnySetUp(k2, s.after);
    var k3 := Prepared(k2, s.after);
    StartOK(k3, s.startAt);
    Start(k3, s.startAt)
  }

  // ---- What every run keeps, in the words of the source ----

  /** Each list node is exactly where the status word says. */
  ghost predicate PlacedExactly(k: Kernel, t: Tid)
    requires t < |k.tcbs|
  {
    var c := k.tcbs[t];
    && (On(k, FreeList, t) || On(k, RecycleList, t) <==> c.st.unused)
    && !(On(k, FreeList, t) && On(k, RecycleList, t))
    && (forall p :: On(k, ReadyList(p), t) <==> c.st.ready && t != k.cfg.idle && p == c.prio)
    && (forall l: ListId :: l.IsWait() ==> (On(k, l, t) <==> c.st.pend && l == WaitListOf(c.call)))
    && (Timed(k, t) <==> c.st.delay || c.st.pendTime)
    && (c.st.running <==> t == k.run)
  }

  lemma OneHome(k: Kernel, t: Tid)
    requires KernelOK(k) && t < k.cfg.tasks
    ensures PlacedExactly(k, t)
    ensures forall l, m :: On(k, l, t) && On(k, m, t) ==> l == m
  {
    assert TaskOK(k, t);
    var c := k.tcbs[t];
    forall l, m | On(k, l, t) && On(k, m, t) ensures l == m {
      assert Home(l, c, t == k.cfg.idle) && Home(m, c, t == k.cfg.idle);
    }
  }

  ghost predicate ListsExact(k: Kernel, t: Tid) {
    && t < |k.tcbs| && PlacedExactly(k, t)
    && (forall l, m :: On(k, l, t) && On(k, m, t) ==> l == m)
    && (forall l :: NoDup(At(k.lists, l)))
    && UniqueIds(k.timers) && Sorted(k.timers)
  }

  /** Over all runs: placement of every list node and every deadline node. */
  lemma PlacementOverRuns(k0: Kernel, steps: seq<Step>, t: Tid)
    requires KernelOK(k0) && LegalRun(k0, steps) && t < k0.cfg.tasks
    ensures ListsExact(Run(k0, steps), t)
  {
    hide LegalRun, Run, PlacedExactly;
    OneHome(Run(k0, steps), t);
  }

  /** The slots of a queue in use are readable, writable, or promised to a woken reader or writer. */
  ghost predicate SlotsAccounted(k: Kernel, q: nat)
    requires Shape(k) && q < |k.obj.queues|
  {
    var x := k.obj.queues[q];
    var readers, writers := |Flight(k, q, true)|, |Flight(k, q, false)|;
    && x.readable + x.writable + readers + writers == x.len
    && (At(k.lists, ReadList(q)) != [] ==> x.readable == 0)
    && (At(k.lists, WriteList(q)) != [] ==> x.writable == 0)
    && x.tail == Wrap(x.head + x.readable + readers, x.len)
  }

  lemma AccountedNow(k: Kernel, q: nat)
    requires KernelOK(k) && q < |k.obj.queues| && k.obj.queues[q].used
    ensures SlotsAccounted(k, q)
  {
    assert QueueOK(k, q);
  }

  lemma SlotsOverRuns(k0: Kernel, steps: seq<Step>, q: nat)
    requires KernelOK(k0) && LegalRun(k0, steps)
    requires q < |Run(k0, steps).obj.queues| && Run(k0, steps).obj.queues[q].used
    ensures SlotsAccounted(Run(k0, steps), q)
  {
    hide Run, LegalRun, SlotsAccounted;
    AccountedNow(Run(k0, steps), q);
  }

  /** `t` waits for bits of event `e` that are not there. */
  ghost predicate WaitsInVain(k: Kernel, e: nat, t: Tid) {
    && e < |k.obj.events| && t < |k.tcbs|
    && k.tcbs[t].st.pend && WaitListOf(k.tcbs[t].call) == EventList(e)
    && EventFlags.Match(k.obj.events[e].bits, k.tcbs[t].eventMask, k.tcbs[t].eventMode) == 0
  }

  lemma WaitingNow(k: Kernel, e: nat, t: Tid)
    requires KernelOK(k) && On(k, EventList(e), t)
    ensures WaitsInVain(k, e, t)
  {
    hide EventFlags.Match, EventFlags.ModeOK;
    assert EventOK(k, e);
    assert TaskOK(k, t) && Placed(k, t);
    assert Home(EventList(e), k.tcbs[t], t == k.cfg.idle);
  }

  /** No lost wake-up: over all runs, nobody waits for event bits that are there. */
  lemma NoLostWakeup(k0: Kernel, steps: seq<Step>, e: nat, t: Tid)
    requires KernelOK(k0) && LegalRun(k0, steps)
    requires On(Run(k0, steps), EventList(e), t)
    ensures WaitsInVain(Run(k0, steps), e, t)
  {
    hide Run, LegalRun, WaitsInVain;
    WaitingNow(Run(k0, steps), e, t);
  }
}
