/** Start-up on the kernel's globals (kernel/src/los_init.c): from memory to the first state of the machine. */
module KernelBoot {
  import opened Sequences
  import opened KernelState
  import opened Sched
  import opened SchedProofs
  import opened Machine
  import opened MachineProofs
  import opened Invariants
  import opened StatusWord
  import opened ReadyBitmap
  import opened DoubleList
  import opened TaskLists
  import opened SortLink
  import opened KernelObjects
  import opened SchedCode
  import opened TaskCode
  import opened TaskProofs
  import opened Boot
  import EventCode
  import EventFlags
  import MessageQueue
  import MuxCode
  import Mutex
  import QueueCode
  import SemCode
  import Semaphore
  import Task

  // ---- Memory ----

  ghost predicate TasksUnused(tasks: seq<TaskCB>, n: nat)
    reads tasks
  {
    && |tasks| == n + 1 && NoDup(tasks)
    && (forall t :: 0 <= t <= n ==> tasks[t].taskID == t && tasks[t].Block() == if t == n then STAND_IN else BLANK)
  }

  /** g_taskCBArray: one block for each task, and the stand-in. */
  method AllocTasks(n: nat) returns (tasks: seq<TaskCB>)
    ensures fresh(tasks) && TasksUnused(tasks, n)
  {
    Masks();
    hide FlagsOf, Test;
    tasks := [];
    while |tasks| < n
      invariant |tasks| <= n && NoDup(tasks)
      invariant forall t :: 0 <= t < |tasks| ==> fresh(tasks[t]) && tasks[t].taskID == t && tasks[t].Block() == BLANK
    {
      var t := new TaskCB(|tasks|);
      tasks := tasks + [t];
    }
    var standIn := new TaskCB(n);
    standIn.taskStatus, standIn.priority := UNUSED | RUNNING, LOWEST + 1;
    tasks := tasks + [standIn];
  }

  /** The `pendList` nodes of the tasks. */
  method AllocNodes(n: nat) returns (nodes: seq<ListNode>)
    ensures |nodes| == n && forall t :: 0 <= t < n ==> fresh(nodes[t]) && nodes[t].entry == Some(t)
  {
    nodes := [];
    while |nodes| < n
      invariant |nodes| <= n && forall t :: 0 <= t < |nodes| ==> fresh(nodes[t]) && nodes[t].entry == Some(t)
    {
      var node := new ListNode(Some(|nodes|));
      nodes := nodes + [node];
    }
  }

  /** The list heads, each initialised by LOS_ListInit. */
  method AllocHeads(ids: seq<ListId>) returns (heads: map<ListId, ListNode>)
    ensures forall l :: l in heads <==> l in ids
    ensures forall l :: l in heads ==> fresh(heads[l]) && heads[l].entry == None && Ring(heads[l], [])
    ensures forall l, m :: l in heads && m in heads && l != m ==> heads[l] != heads[m]
  {
    heads := map[];
    for i := 0 to |ids|
      invariant forall l :: l in heads <==> l in ids[..i]
      invariant forall l :: l in heads ==> fresh(heads[l]) && heads[l].entry == None && Ring(heads[l], [])
      invariant forall l, m :: l in heads && m in heads && l != m ==> heads[l] != heads[m]
    {
      var head := new ListNode(None);
      ListInit(head);
      heads := heads[ids[i] := head];
      assert ids[..i + 1] == ids[..i] + [ids[i]];
    }
    assert ids[..|ids|] == ids;
  }

  /** The `sortList` records of the tasks. */
  method AllocItems(n: nat) returns (items: seq<SortLinkList>)
    ensures |items| == n && SortLink.Wired(items)
    ensures forall i :: 0 <= i < n ==> fresh(items[i]) && fresh(items[i].node) && items[i].responseTime == INVALID_TIME
  {
    items := [];
    while |items| < n
      invariant |items| <= n && SortLink.Wired(items)
      invariant forall i :: 0 <= i < |items| ==>
                  fresh(items[i]) && fresh(items[i].node) && items[i].responseTime == INVALID_TIME
    {
      var item := new SortLinkList(|items|);
      items := items + [item];
    }
  }

  /** OsTaskInit: every control block goes to the tail of the free list. */
  method FillFreeList(links: ListPool, n: nat, ghost limits: Limits)
    requires links.Valid() && |links.nodes| == n && links.lists == FirstLists(0, limits)
    modifies links, links.nodes, links.headSet
    ensures links.Valid() && links.lists == FirstLists(n, limits)
  {
    hide ListPool.Valid, FirstLists, HeadIds, HasHead;
    for t := 0 to n
      invariant links.Valid() && links.lists == FirstLists(t, limits)
    {
      OneMore(links, t, limits);
      links.TailInsert(FreeList, t);
    }
  }

  lemma OneMore(links: ListPool, t: nat, n: Limits)
    requires links.lists == FirstLists(t, n)
    ensures FreeList in links.lists && links.Unlinked(t)
            && PushBack(FirstLists(t, n), FreeList, t) == FirstLists(t + 1, n)
  {
    Headed(FreeList, n);
    assert Count(t + 1) == Count(t) + [t];
    hide HeadIds;
  }

  // ---- The globals ----

  method InitPool(n: nat, limits: Limits) returns (links: ListPool)
    ensures fresh(links) && fresh(links.nodes) && fresh(links.headSet)
    ensures PoolUnused(links, n, limits)
  {
    hide *;
    var nodes := AllocNodes(n);
    var heads := AllocHeads(HeadIds(limits));
    links := new ListPool(nodes, heads);
    NoTasks(links.lists, limits);
    FillFreeList(links, n, limits);
    PoolIs(links, n, limits);
  }

  ghost predicate PoolUnused(links: ListPool, n: nat, limits: Limits)
    reads links, links.nodes, links.headSet
  {
    links.Valid() && |links.nodes| == n && links.lists == FirstLists(n, limits)
  }

  lemma PoolIs(links: ListPool, n: nat, limits: Limits)
    requires links.Valid() == true && |links.nodes| == n && links.lists == FirstLists(n, limits)
    ensures PoolUnused(links, n, limits)
  {
    hide ListPool.Valid, FirstLists;
  }

  ghost predicate NothingTimed(sortLink: SortLinkAttribute, n: nat)
    reads sortLink, sortLink.sortLink, sortLink.nodes, sortLink.items
  {
    sortLink.Valid() && sortLink.order == [] && |sortLink.items| == n
  }

  lemma Separated(links: ListPool, sortLink: SortLinkAttribute)
    requires sortLink.sortLink !in links.nodes && sortLink.sortLink !in links.headSet
    requires forall i :: 0 <= i < |sortLink.nodes| ==>
             sortLink.nodes[i] !in links.nodes && sortLink.nodes[i] !in links.headSet
    ensures NodesApart(links, sortLink)
  {
  }

  lemma NoTasks(m: Lists, n: Limits)
    requires (forall l :: l in m <==> l in HeadIds(n)) && forall l :: l in m ==> m[l] == []
    ensures m == FirstLists(0, n)
  {
    hide HeadIds;
  }

  /** The tables of semaphores, mutexes, queues and events, all unused. */
  method AllocObjects(n: Limits)
        returns (sems: array<Sem>, muxes: array<Mux>, queues: array<Queue>, events: array<Event>)
    ensures fresh(sems) && fresh(muxes) && fresh(queues) && fresh(events)
            && ObjectsUnused(sems, muxes, queues, events, n)
  {
    sems := new Sem[n.sems](_ => Sem(false, 0, 0));
    muxes := new Mux[n.muxes](_ => Mux(false, 0, None, 0));
    queues := new Queue[n.queues](_ => Queue(false, 0, 0, 0, 0, 0, 0, []));
    events := new Event[n.events](_ => Event(false, 0));
  }

  ghost predicate ObjectsUnused(sems: array<Sem>, muxes: array<Mux>, queues: array<Queue>, events: array<Event>,
                                n: Limits)
    reads sems, muxes, queues, events
  {
    && sems.Length == n.sems && (forall i :: 0 <= i < n.sems ==> sems[i] == Sem(false, 0, 0))
    && muxes.Length == n.muxes && (forall i :: 0 <= i < n.muxes ==> muxes[i] == Mux(false, 0, None, 0))
    && queues.Length == n.queues && (forall i :: 0 <= i < n.queues ==> queues[i] == Queue(false, 0, 0, 0, 0, 0, 0, []))
    && events.Length == n.events && (forall i :: 0 <= i < n.events ==> events[i] == Event(false, 0))
  }

  method InitSortLink(n: nat) returns (sortLink: SortLinkAttribute)
    ensures fresh(sortLink) && fresh(sortLink.sortLink) && fresh(sortLink.nodes) && fresh(sortLink.items)
    ensures NothingTimed(sortLink, n)
  {
    var items := AllocItems(n);
    sortLink := new SortLinkAttribute(items);
    hide SortLinkAttribute.Valid;
    assert forall i :: 0 <= i < n ==> sortLink.nodes[i] == items[i].node;
  }

  /** The globals stand for the state in which everything is unused. */
  method InitGlobals(cfg: Config, n: Limits) returns (g: Globals)
    requires cfg.idle < cfg.tasks
    ensures fresh(g) && fresh(g.Parts()) && g.cfg == cfg
    ensures g.Valid() && g.abs == Init(cfg, n)
  {
    hide *;
    var sems, muxes, queues, events := AllocObjects(n);
    var tasks := AllocTasks(cfg.tasks);
    var links := InitPool(cfg.tasks, n);
    var sortLink := InitSortLink(cfg.tasks);
    Separated(links, sortLink);
    g := WireGlobals(cfg, n, tasks, links, sortLink, sems, muxes, queues, events);
    Pieces(g, cfg, tasks, links, sortLink, sems, muxes, queues, events);
  }

  method WireGlobals(cfg: Config, n: Limits, tasks: seq<TaskCB>, links: ListPool, sortLink: SortLinkAttribute,
                     sems: array<Sem>, muxes: array<Mux>, queues: array<Queue>, events: array<Event>)
      returns (g: Globals)
    requires cfg.idle < cfg.tasks && TasksUnused(tasks, cfg.tasks)
    requires PoolUnused(links, cfg.tasks, n) && NothingTimed(sortLink, cfg.tasks) && NodesApart(links, sortLink)
    requires ObjectsUnused(sems, muxes, queues, events, n)
    ensures fresh(g) && MadeOf(g, cfg, tasks, links, sortLink, sems, muxes, queues, events)
    ensures g.Valid() && g.abs == Init(cfg, n)
  {
    hide *;
    TaskCount(tasks, cfg.tasks);
    g := new Globals(cfg, tasks, links, sortLink, sems, muxes, queues, events,
                     Count(n.sems), Count(n.muxes), Count(n.queues), Init(cfg, n));
    Made(g);
    TasksStand(g, n);
    LinksStand(g, n);
    TimersStand(g);
    ObjectsStand(g, n);
    AllStand(g, n);
  }

  ghost predicate MadeOf(g: Globals, cfg: Config, tasks: seq<TaskCB>, links: ListPool, sortLink: SortLinkAttribute,
                         sems: array<Sem>, muxes: array<Mux>, queues: array<Queue>, events: array<Event>) {
    && g.cfg == cfg && g.tasks == tasks && g.links == links && g.sortLink == sortLink
    && g.sems == sems && g.muxes == muxes && g.queues == queues && g.events == events
  }

  /** No node of a task's deadline is a node of the lists. */
  ghost predicate NodesApart(links: ListPool, sortLink: SortLinkAttribute) {
    && sortLink.sortLink !in links.nodes && sortLink.sortLink !in links.headSet
    && (forall x :: x in sortLink.nodes ==> x !in links.nodes && x !in links.headSet)
  }

  lemma Made(g: Globals)
    ensures MadeOf(g, g.cfg, g.tasks, g.links, g.sortLink, g.sems, g.muxes, g.queues, g.events)
    ensures NodesApart(g.links, g.sortLink) ==> g.Separate()
  {
  }

  /** Whatever the kernel may write to is one of its parts. */
  lemma Pieces(g: Globals, cfg: Config, tasks: seq<TaskCB>, links: ListPool, sortLink: SortLinkAttribute,
               sems: array<Sem>, muxes: array<Mux>, queues: array<Queue>, events: array<Event>)
    requires MadeOf(g, cfg, tasks, links, sortLink, sems, muxes, queues, events)
    ensures g.cfg == cfg
    ensures forall x :: x in g.Parts() ==>
              || x in {g, links, sortLink, sortLink.sortLink, sems, muxes, queues, events}
              || x in tasks || x in links.nodes || x in links.headSet || x in sortLink.nodes || x in sortLink.items
  {
  }

  lemma TaskCount(tasks: seq<TaskCB>, n: nat)
    requires TasksUnused(tasks, n)
    ensures |tasks| == n + 1
  {
  }

  lemma TasksStand(g: Globals, n: Limits)
    requires TasksUnused(g.tasks, g.cfg.tasks)
    ensures g.TasksAre(Init(g.cfg, n).tcbs)
  {
    hide TaskCB.Block, NoDup, FirstLists, FirstObjects;
  }

  lemma LinksStand(g: Globals, n: Limits)
    requires PoolUnused(g.links, g.cfg.tasks, n)
    requires ObjectsUnused(g.sems, g.muxes, g.queues, g.events, n)
    ensures g.LinksAre(FirstLists(g.cfg.tasks, n)) && Agrees(0, FirstLists(g.cfg.tasks, n))
  {
    forall l | g.HasList(l) ensures l in FirstLists(g.cfg.tasks, n) {
      Headed(l, n);
    }
    forall p | 0 <= p <= LOWEST ensures At(FirstLists(g.cfg.tasks, n), ReadyList(p)) == [] && !Has(0, p) {
      FirstAt(g.cfg.tasks, n, ReadyList(p));
      NoBit(p);
    }
    hide ListPool.Valid, FirstLists, HeadIds, Has, At;
  }

  lemma NoBit(p: nat)
    requires p <= LOWEST
    ensures !Has(0, p)
  {
  }

  lemma TimersStand(g: Globals)
    requires NothingTimed(g.sortLink, g.cfg.tasks)
    ensures g.TimersAre([])
  {
    hide SortLinkAttribute.Valid;
  }

  lemma ObjectsStand(g: Globals, n: Limits)
    requires ObjectsUnused(g.sems, g.muxes, g.queues, g.events, n)
    requires g.freeSems == Count(n.sems) && g.freeMuxes == Count(n.muxes) && g.freeQueues == Count(n.queues)
    ensures g.ObjectsAre(FirstObjects(n))
  {
    hide Count;
  }

  lemma AllStand(g: Globals, n: Limits)
    requires g.cfg.idle < g.cfg.tasks && g.abs == Init(g.cfg, n)
    requires |g.tasks| == g.cfg.tasks + 1 && g.runTask == g.tasks[g.cfg.tasks] && g.taskLock == 0 && g.queueBitmap == 0
    requires g.TasksAre(g.abs.tcbs) == true && g.LinksAre(FirstLists(g.cfg.tasks, n)) == true
    requires Agrees(0, FirstLists(g.cfg.tasks, n)) == true
    requires g.TimersAre([]) == true && g.ObjectsAre(FirstObjects(n)) == true && g.Separate() == true
    ensures g.Valid()
  {
    hide Globals.TasksAre, Globals.LinksAre, Globals.TimersAre, Globals.ObjectsAre, Globals.Separate, Agrees,
        FirstLists, FirstObjects;
  }

  // ---- From there to the first task ----

  /** A call made before the scheduler runs; the LOS_Schedule at the end of a task's creation is skipped. */
  method SetUpCall(g: Globals, op: Op)
    requires g.Valid() && Preparing(g.abs) == true && SetsUp(op) && LeavesIdle(g.abs, op) == true
    modifies g.Parts()
    ensures g.Valid() && IsSetUp(old(g.abs), op, g.abs)
  {
    hide *;
    ghost var k := g.abs;
    SetUpReady(k, op);
    var ret, sched;
    match op {
      case TaskCreateOnly(prio, memory) => ret, sched := TaskCode.TaskCreateOnly(g, prio, memory);
      case TaskCreate(prio, memory) => ret, sched := TaskCode.TaskCreate(g, prio, memory);
      case SemCreate(count, max) => ret, sched := SemCode.SemCreate(g, count, max);
      case MuxCreate => ret, sched := MuxCode.MuxCreate(g);
      case QueueCreate(len, maxMsg, memory) => ret, sched := QueueCode.QueueCreate(g, len, maxMsg, memory);
      case EventInit(e) => ret, sched := EventCode.EventInit(g, e);
    }
    SetUpDone(k, op, Out(g.abs, ret, sched));
  }

  ghost predicate IsSetUp(k: Kernel, op: Op, k': Kernel) {
    Preparing(k) && SetsUp(op) && LeavesIdle(k, op) && k' == SetUp(k, op)
  }

  lemma SetUpReady(k: Kernel, op: Op)
    requires Preparing(k) && SetsUp(op) && LeavesIdle(k, op)
    ensures op.TaskCreateOnly? || op.TaskCreate? || op.SemCreate? || op.MuxCreate? || op.QueueCreate? || op.EventInit?
    ensures Sound(k) && SchedOK(k) && Defined(k)
    ensures op.TaskCreate? ==> SparesIdle(k, op.prio, op.memory)
  {
    SoundDefined(k);
    hide SchedOK, ObjectsOK, Defined;
  }

  lemma SetUpDone(k: Kernel, op: Op, o: Out)
    requires Preparing(k) && SetsUp(op) && LeavesIdle(k, op) && Defined(k)
    requires op.TaskCreateOnly? ==> Creatable(k) && o == Task.CreateOnly(k, op.prio, op.memory)
    requires op.TaskCreate? ==> Creatable(k) && o == Task.Create(k, op.prio, op.memory)
    requires op.SemCreate? ==>
               && (forall s :: s in k.obj.semFree ==> s < |k.obj.sems|)
               && o == Semaphore.Create(k, op.count, op.max)
    requires op.MuxCreate? ==> (forall m :: m in k.obj.muxFree ==> m < |k.obj.muxes|) && o == Mutex.Create(k)
    requires op.QueueCreate? ==>
               && (forall q :: q in k.obj.queueFree ==> q < |k.obj.queues|)
               && o == MessageQueue.Create(k, op.len, op.maxMsg, op.memory)
    requires op.EventInit? ==> o == EventFlags.Init(k, op.event)
    ensures IsSetUp(k, op, o.k)
  {
    SetUpIs(k, op);
    hide Preparing, Do, Defined, SparesIdle, Task.CreateOnly, Task.Create, Semaphore.Create, Mutex.Create,
         MessageQueue.Create, EventFlags.Init;
  }

  /** The calls of one phase of the set-up, one after the other. */
  method SetUpCalls(g: Globals, ops: seq<Op>)
    requires g.Valid() && Preparing(g.abs) && MaySetUp(g.abs, ops) == true
    modifies g.Parts()
    ensures g.Valid() && IsPrepared(old(g.abs), ops, g.abs)
  {
    hide *;
    ghost var k := g.abs;
    var todo := ops;
    PreparedIs(k, ops);
    while todo != []
      invariant g.Valid() && Preparing(g.abs) && MaySetUp(g.abs, todo) == true
      invariant IsPrepared(k, ops, Prepared(g.abs, todo))
      decreases |todo|
    {
      MoreToSetUp(g.abs, todo);
      SetUpCall(g, todo[0]);
      todo := todo[1..];
    }
    NoMoreToSetUp(g.abs);
  }

  ghost predicate IsPrepared(k: Kernel, ops: seq<Op>, k': Kernel) {
    Preparing(k) && MaySetUp(k, ops) && k' == Prepared(k, ops)
  }

  lemma PreparedIs(k: Kernel, ops: seq<Op>)
    requires Preparing(k) && MaySetUp(k, ops)
    ensures IsPrepared(k, ops, Prepared(k, ops))
  {
    hide Preparing, MaySetUp, Prepared;
  }

  lemma MoreToSetUp(k: Kernel, ops: seq<Op>)
    requires Preparing(k) && MaySetUp(k, ops) && ops != []
    ensures SetsUp(ops[0]) && LeavesIdle(k, ops[0])
    ensures forall k' :: IsSetUp(k, ops[0], k') ==>
              Preparing(k') && MaySetUp(k', ops[1..]) && Prepared(k, ops) == Prepared(k', ops[1..])
  {
    hide Preparing, SetsUp, LeavesIdle, SetUp;
  }

  lemma NoMoreToSetUp(k: Kernel)
    requires Preparing(k)
    ensures MaySetUp(k, []) && Prepared(k, []) == k
  {
    hide Preparing;
  }

  /** OsIdleTaskCreate: the block at the head of the free list becomes the idle task, ready from the start. */
  method IdleTaskCreate(g: Globals)
    requires g.Valid() && Preparing(g.abs) == true && IdleNext(g.abs)
    modifies g.Parts()
    ensures g.Valid() && old(g.abs).cfg.idle < |old(g.abs).tcbs| && g.abs == CreateIdle(old(g.abs))
  {
    hide *;
    ghost var k := g.abs;
    IdleReady(k);
    HasFree(g);
    g.RunAt();
    var t := g.ListFirst(FreeList);
    OffNowhere(g, t);
    g.ListDelete(t);
    NewTaskInit(g, t, LOWEST);
    SchedTaskEnQueue(g, t);
  }

  lemma IdleReady(k: Kernel)
    requires Preparing(k) && IdleNext(k)
    ensures var t := k.cfg.idle;
            && At(k.lists, FreeList) != [] && At(k.lists, FreeList)[0] == t && t in At(k.lists, FreeList)
            && t < k.cfg.tasks && t < |k.tcbs| && SchedCode.Waiting(k.lists, t)
            && var k1 := k.(lists := Unlink(k.lists, t));
               var k2 := SetTcb(k1, t, Task.Fresh(k1.tcbs[t], LOWEST));
               && !TcbAt(k2, t).st.ready && TcbAt(k2, t).prio <= LOWEST && k2.cfg == k.cfg
               && EnQueue(k2, t) == CreateIdle(k)
  {
    FreeReady(k);
    hide SchedOK, ObjectsOK, EnQueue, SchedCode.Waiting, Unlink;
  }

  /** OsSchedStart, without the programming of the tick timer that ends it. */
  method SchedStart(g: Globals, currTime: nat)
    requires g.Valid() && Preparing(g.abs) == true && IdleMade(g.abs)
    modifies g.Parts()
    ensures g.Valid() && Top(old(g.abs)) < |old(g.abs).tcbs| && g.abs == Start(old(g.abs), currTime)
  {
    hide *;
    ghost var k := g.abs;
    TopReady(k, currTime);
    var newTask := g.TopTask();
    g.RunAt();
    g.TaskAt(newTask);
    SetIs(g.tasks[newTask].taskStatus);
    g.SetStatus(newTask, Set(g.tasks[newTask].taskStatus, RUNNING));
    g.SetRun(newTask);
    g.SetStart(newTask, currTime);
    StartIs(k, newTask, currTime);
    SchedTaskDeQueue(g, newTask);
    g.ReadClock(currTime);
  }

  /** The task that is started is on the ready list of its priority, unless it is the idle task. */
  lemma TopReady(k: Kernel, now: nat)
    requires Preparing(k) && IdleMade(k)
    ensures var n := Top(k);
            && n < k.cfg.tasks && n < |k.tcbs|
            && (n != k.cfg.idle ==> k.tcbs[n].prio <= LOWEST && n in At(k.lists, ReadyList(k.tcbs[n].prio)))
  {
    StartOK(k, now);
    TopIsBest(k);
    assert TaskOK(k, Top(k));
    hide Top, Start, ObjectsOK, ListsOK;
  }

  lemma StartIs(k: Kernel, n: Tid, now: nat)
    requires n == Top(k) && n < |k.tcbs|
    requires n != k.cfg.idle ==> k.tcbs[n].prio <= LOWEST && n in At(k.lists, ReadyList(k.tcbs[n].prio))
    ensures var k1 := PutTcb(k, n, TcbAt(k, n).(st := TcbAt(k, n).st.(running := true))).(run := n);
            var k2 := PutTcb(k1, n, TcbAt(k1, n).(start := now));
            && |k2.tcbs| == |k.tcbs| && k2.cfg == k.cfg && k2.lists == k.lists
            && (n != k.cfg.idle ==> TcbAt(k2, n).prio <= LOWEST && n in At(k2.lists, ReadyList(TcbAt(k2, n).prio)))
            && DeQueue(k2, n).(now := now) == Start(k, now)
  {
    hide Top;
    var c := k.tcbs[n];
    var a := c.(st := c.st.(running := true));
    assert k.tcbs[n := a][n := a.(start := now)] == k.tcbs[n := a.(start := now)];
  }

  /** The kernel's memory reaches the state that every run starts from. */
  method KernelStart(cfg: Config, n: Limits, s: Setup) returns (g: Globals)
    requires Bootable(cfg, n, s) == true
    ensures fresh(g) && fresh(g.Parts())
    ensures g.Valid() && Bootable(cfg, n, s) && g.abs == Booted(cfg, n, s) && KernelOK(g.abs)
  {
    hide *;
    BootSteps(cfg, n, s);
    g := InitGlobals(cfg, n);
    SetUpCalls(g, s.before);
    IdleTaskCreate(g);
    SetUpCalls(g, s.after);
    SchedStart(g, s.startAt);
  }

  /** The stages of a start-up, one after the other. */
  lemma BootSteps(cfg: Config, n: Limits, s: Setup)
    requires Bootable(cfg, n, s)
    ensures cfg.idle < cfg.tasks && Preparing(Init(cfg, n)) && MaySetUp(Init(cfg, n), s.before)
    ensures forall k1 :: IsPrepared(Init(cfg, n), s.before, k1) ==>
              && Preparing(k1) && IdleNext(k1) && k1.cfg.idle < |k1.tcbs|
              && var k2 := CreateIdle(k1);
                 && Preparing(k2) && MaySetUp(k2, s.after)
                 && forall k3 :: IsPrepared(k2, s.after, k3) ==>
                      && Preparing(k3) && IdleMade(k3) && Top(k3) < |k3.tcbs|
                      && Start(k3, s.startAt) == Booted(cfg, n, s)
  {
    InitOK(cfg, n);
    var k1 := Prepared(Init(cfg, n), s.before);
    CreateIdleOK(k1);
    var k2 := CreateIdle(k1);
    AnySetUp(k2, s.after);
    StartOK(Prepared(k2, s.after), s.startAt);
    hide Preparing, Prepared, MaySetUp, CreateIdle, Start, Init, Top;
  }
}
