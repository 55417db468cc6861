/**
 * The kernel's globals: control blocks updated in place, the intrusive lists with the ready
 * bitmap, and the deadline queue. `abs` is the state of the machine that the globals stand for.
 */
module KernelObjects {
  import opened Sequences
  import opened Deadlines
  import opened KernelState
  import opened Sched
  import opened StatusWord
  import opened ReadyBitmap
  import opened TaskLists
  import opened SortLink

  /** LosTaskCB. `call` is what the task's stack holds while it waits inside a kernel call. */
  class TaskCB {
    const taskID: nat
    var taskStatus: bv16
    var priority: nat
    var timeSlice: int
    var startTime: nat
    var waitTimes: nat
    var eventMask: bv32
    var eventMode: bv32
    var call: Call

    constructor (id: nat)
      ensures taskID == id && taskStatus == UNUSED && priority == 0 && timeSlice == 0 && startTime == 0
      ensures waitTimes == 0 && eventMask == 0 && eventMode == 0 && call == NoCall
    {
      taskID := id;
      taskStatus, priority, timeSlice, startTime, waitTimes := UNUSED, 0, 0, 0, 0;
      eventMask, eventMode, call := 0, 0, NoCall;
    }

    ghost function Block(): Tcb
      reads this
    {
      Tcb(FlagsOf(taskStatus), priority, timeSlice, startTime, waitTimes, eventMask, eventMode, call)
    }

    lemma BlockIs()
      ensures Block() == Tcb(FlagsOf(taskStatus), priority, timeSlice, startTime, waitTimes, eventMask, eventMode, call)
    {
    }
  }

  class Globals {
    const cfg: Config
    const tasks: seq<TaskCB>
    const links: ListPool
    const sortLink: SortLinkAttribute
    /** The tables of LosSemCB, LosMuxCB, LosQueueCB and EVENT_CB_S records. */
    const sems: array<Sem>
    const muxes: array<Mux>
    const queues: array<Queue>
    const events: array<Event>

    var queueBitmap: bv32
    var runTask: TaskCB
    var taskLock: nat
    var freeSems: seq<nat>
    var freeMuxes: seq<nat>
    var freeQueues: seq<nat>

    ghost var abs: Kernel

    /** Nothing is ready; the last control block, the stand-in, plays the running task. */
    constructor (cfg: Config, tasks: seq<TaskCB>, links: ListPool, sortLink: SortLinkAttribute,
                 sems: array<Sem>, muxes: array<Mux>, queues: array<Queue>, events: array<Event>,
                 freeSems: seq<nat>, freeMuxes: seq<nat>, freeQueues: seq<nat>, ghost k: Kernel)
      requires tasks != []
      ensures this.cfg == cfg && this.tasks == tasks && this.links == links && this.sortLink == sortLink
      ensures this.sems == sems && this.muxes == muxes && this.queues == queues && this.events == events
      ensures this.freeSems == freeSems && this.freeMuxes == freeMuxes && this.freeQueues == freeQueues
      ensures queueBitmap == 0 && taskLock == 0 && runTask == tasks[|tasks| - 1] && abs == k
    {
      this.cfg, this.tasks, this.links, this.sortLink := cfg, tasks, links, sortLink;
      this.sems, this.muxes, this.queues, this.events := sems, muxes, queues, events;
      this.freeSems, this.freeMuxes, this.freeQueues := freeSems, freeMuxes, freeQueues;
      queueBitmap, taskLock, runTask := 0, 0, tasks[|tasks| - 1];
      abs := k;
    }

    // ---- What the globals hold ----

    ghost function Parts(): set<object> {
      {this, links, sortLink, sortLink.sortLink}
      + (set x | x in tasks) + (set x | x in links.nodes) + links.headSet
      + (set x | x in sortLink.nodes) + (set x | x in sortLink.items)
      + {sems, muxes, queues, events}
    }

    /** Which lists have a head. */
    predicate HasList(l: ListId) {
      match l
      case FreeList => true
      case RecycleList => true
      case ReadyList(p) => p <= LOWEST
      case SemList(s) => s < sems.Length
      case MuxList(m) => m < muxes.Length
      case ReadList(q) => q < queues.Length
      case WriteList(q) => q < queues.Length
      case EventList(e) => e < events.Length
    }

    ghost predicate TasksAre(ts: seq<Tcb>)
      reads tasks
    {
      && |tasks| == cfg.tasks + 1 == |ts| && NoDup(tasks)
      && forall t :: 0 <= t < |tasks| ==> tasks[t].taskID == t && tasks[t].Block() == ts[t]
    }

    ghost predicate LinksAre(m: Lists)
      reads links, links.nodes, links.headSet
    {
      && links.Valid() && links.lists == m && |links.nodes| == cfg.tasks
      && forall l :: HasList(l) ==> l in m
    }

    ghost predicate TimersAre(q: seq<Entry>)
      reads sortLink, sortLink.sortLink, sortLink.nodes, sortLink.items
    {
      sortLink.Valid() && sortLink.Entries() == q && |sortLink.items| == cfg.tasks
    }

    ghost predicate ObjectsAre(o: Objects)
      reads `freeSems, `freeMuxes, `freeQueues, sems, muxes, queues, events
    {
      && sems[..] == o.sems && muxes[..] == o.muxes && queues[..] == o.queues && events[..] == o.events
      && freeSems == o.semFree && freeMuxes == o.muxFree && freeQueues == o.queueFree
    }

    /** The two kinds of list node are never the same object. */
    ghost predicate Separate() {
      && sortLink.sortLink !in links.nodes && sortLink.sortLink !in links.headSet
      && (forall x :: x in sortLink.nodes ==> x !in links.nodes && x !in links.headSet)
    }

    // A comparison with `true` keeps the predicate in one piece when it is checked at a call.

    /** The globals stand for the machine state `k`. */
    ghost predicate Stands(k: Kernel)
      reads Parts()
    {
      && k.cfg == cfg && cfg.idle < cfg.tasks && k.run <= cfg.tasks && |tasks| == |k.tcbs| == cfg.tasks + 1
         && Separate() == true
      && TasksAre(k.tcbs) == true && runTask == tasks[k.run] && taskLock == k.lock
      && LinksAre(k.lists) == true && Agrees(queueBitmap, k.lists) == true
      && TimersAre(k.timers) == true
      && ObjectsAre(k.obj) == true
    }

    ghost predicate Valid()
      reads Parts()
    {
      Stands(abs) == true
    }

    // ---- Facts about a valid state ----

    /** The running task is its own control block's task. */
    lemma RunAt()
      requires Valid()
      ensures runTask.taskID == abs.run <= cfg.tasks && abs.run < |tasks| == |abs.tcbs| && runTask == tasks[abs.run]
      ensures abs.cfg == cfg && cfg.idle < cfg.tasks && taskLock == abs.lock && |abs.tcbs| == cfg.tasks + 1
    {
    }

    lemma TaskAt(t: Tid)
      requires Valid() && t <= cfg.tasks
      ensures t < |tasks| == |abs.tcbs|
      ensures TcbAt(abs, t) == abs.tcbs[t] && abs.cfg == cfg
      ensures var c, b := tasks[t], abs.tcbs[t];
              && c.taskID == t && FlagsOf(c.taskStatus) == b.st && c.priority == b.prio && c.timeSlice == b.slice
              && c.startTime == b.start && c.waitTimes == b.waitTicks && c.eventMask == b.eventMask
              && c.eventMode == b.eventMode && c.call == b.call
      ensures tasks[t] == runTask <==> t == abs.run
    {
    }

    // ---- Single updates of a control block ----

    /** All control blocks but that of `t` hold what `ts` says. */
    ghost predicate OthersAre(t: Tid, ts: seq<Tcb>)
      reads set i | 0 <= i < |tasks| && i != t :: tasks[i]
    {
      && t < |tasks| == cfg.tasks + 1 == |ts| && NoDup(tasks) && tasks[t].taskID == t
      && forall i :: 0 <= i < |tasks| && i != t ==> tasks[i].taskID == i && tasks[i].Block() == ts[i]
    }

    /** Everything but the control blocks stands for `k`. */
    ghost predicate Rest(k: Kernel)
      reads this, links, links.nodes, links.headSet, sortLink, sortLink.sortLink, sortLink.nodes, sortLink.items
      reads sems, muxes, queues, events
    {
      && k.cfg == cfg && cfg.idle < cfg.tasks && k.run <= cfg.tasks && |tasks| == |k.tcbs| == cfg.tasks + 1
         && Separate() == true
      && runTask == tasks[k.run] && taskLock == k.lock
      && LinksAre(k.lists) == true && Agrees(queueBitmap, k.lists) == true
      && TimersAre(k.timers) == true
      && ObjectsAre(k.obj) == true
    }

    lemma Around(t: Tid)
      requires Valid() && t <= cfg.tasks
      ensures t < |tasks| == |abs.tcbs| && OthersAre(t, abs.tcbs) && Rest(abs)
      ensures forall i :: 0 <= i < |tasks| && i != t ==> tasks[i] != tasks[t]
      ensures tasks[t] in Parts() && this in Parts()
    {
      hide LinksAre, TimersAre, ObjectsAre, Agrees, FlagsOf;
    }

    ghost method Retask(t: Tid, b: Tcb)
      requires OthersAre(t, abs.tcbs) == true && Rest(abs) == true && t < |tasks| && tasks[t].Block() == b
      modifies `abs
      ensures Valid() && abs == PutTcb(old(abs), t, b)
    {
      hide LinksAre, TimersAre, ObjectsAre, Agrees, TaskCB.Block;
      abs := PutTcb(abs, t, b);
    }

    method SetStatus(t: Tid, w: bv16)
      requires Valid() && t <= cfg.tasks
      modifies Parts()
      ensures Valid() && abs == PutTcb(old(abs), t, TcbAt(old(abs), t).(st := FlagsOf(w)))
    {
      hide *;
      Around(t);
      TaskAt(t);
      tasks[t].taskStatus := w;
      tasks[t].BlockIs();
      Retask(t, TcbAt(abs, t).(st := FlagsOf(w)));
    }

    method SetPriority(t: Tid, priority: nat)
      requires Valid() && t <= cfg.tasks
      modifies Parts()
      ensures Valid() && abs == PutTcb(old(abs), t, TcbAt(old(abs), t).(prio := priority))
    {
      hide *;
      Around(t);
      TaskAt(t);
      tasks[t].priority := priority;
      tasks[t].BlockIs();
      Retask(t, TcbAt(abs, t).(prio := priority));
    }

    method SetSlice(t: Tid, slice: int)
      requires Valid() && t <= cfg.tasks
      modifies Parts()
      ensures Valid() && abs == PutTcb(old(abs), t, TcbAt(old(abs), t).(slice := slice))
    {
      hide *;
      Around(t);
      TaskAt(t);
      tasks[t].timeSlice := slice;
      tasks[t].BlockIs();
      Retask(t, TcbAt(abs, t).(slice := slice));
    }

    method SetStart(t: Tid, start: nat)
      requires Valid() && t <= cfg.tasks
      modifies Parts()
      ensures Valid() && abs == PutTcb(old(abs), t, TcbAt(old(abs), t).(start := start))
    {
      hide *;
      Around(t);
      TaskAt(t);
      tasks[t].startTime := start;
      tasks[t].BlockIs();
      Retask(t, TcbAt(abs, t).(start := start));
    }

    method SetWaitTimes(t: Tid, ticks: nat)
      requires Valid() && t <= cfg.tasks
      modifies Parts()
      ensures Valid() && abs == PutTcb(old(abs), t, TcbAt(old(abs), t).(waitTicks := ticks))
    {
      hide *;
      Around(t);
      TaskAt(t);
      tasks[t].waitTimes := ticks;
      tasks[t].BlockIs();
      Retask(t, TcbAt(abs, t).(waitTicks := ticks));
    }

    method SetEvent(t: Tid, mask: bv32, mode: bv32)
      requires Valid() && t <= cfg.tasks
      modifies Parts()
      ensures Valid() && abs == PutTcb(old(abs), t, TcbAt(old(abs), t).(eventMask := mask, eventMode := mode))
    {
      hide *;
      Around(t);
      TaskAt(t);
      tasks[t].eventMask, tasks[t].eventMode := mask, mode;
      tasks[t].BlockIs();
      Retask(t, TcbAt(abs, t).(eventMask := mask, eventMode := mode));
    }

    method SetCall(t: Tid, call: Call)
      requires Valid() && t <= cfg.tasks
      modifies Parts()
      ensures Valid() && abs == PutTcb(old(abs), t, TcbAt(old(abs), t).(call := call))
    {
      hide *;
      Around(t);
      TaskAt(t);
      tasks[t].call := call;
      tasks[t].BlockIs();
      Retask(t, TcbAt(abs, t).(call := call));
    }

    // ---- Updates of the lists ----

    /** Everything but the lists stands for `k`. */
    ghost predicate RestLists(k: Kernel)
      reads `runTask, `taskLock, `freeSems, `freeMuxes, `freeQueues
      reads tasks, sortLink, sortLink.sortLink, sortLink.nodes, sortLink.items, sems, muxes, queues, events
    {
      && k.cfg == cfg && cfg.idle < cfg.tasks && k.run <= cfg.tasks && |tasks| == |k.tcbs| == cfg.tasks + 1
         && Separate() == true
      && TasksAre(k.tcbs) == true && runTask == tasks[k.run] && taskLock == k.lock
      && TimersAre(k.timers) == true
      && ObjectsAre(k.obj) == true
    }

    /** Task `t` is on no list. */
    ghost predicate Off(t: Tid)
      reads `abs
    {
      forall l :: t !in At(abs.lists, l)
    }

    /** Task `t` is on a list that is not a ready list, and on no ready list. */
    ghost predicate Waits(t: Tid)
      reads `abs
    {
      (exists l :: t in At(abs.lists, l)) && forall p :: t !in At(abs.lists, ReadyList(p))
    }

    lemma ListFacts()
      requires Valid()
      ensures abs.cfg == cfg && RestLists(abs) && LinksAre(abs.lists) && Agrees(queueBitmap, abs.lists)
      ensures links.Valid() && links.lists == abs.lists && |links.nodes| == cfg.tasks
      ensures links in Parts() && this in Parts() && (forall x :: x in links.nodes ==> x in Parts())
              && links.headSet <= Parts()
      ensures sortLink.sortLink !in links.nodes && sortLink.sortLink !in links.headSet
      ensures forall i :: 0 <= i < |sortLink.nodes| ==>
              sortLink.nodes[i] !in links.nodes && sortLink.nodes[i] !in links.headSet
      ensures forall l :: HasList(l) ==> l in abs.lists
    {
      hide ListPool.Valid, Agrees, TasksAre, TimersAre, ObjectsAre;
    }

    lemma OffIsUnlinked(t: Tid)
      requires links.lists == abs.lists
      ensures Off(t) ==> links.Unlinked(t)
      ensures (exists l :: t in At(abs.lists, l)) ==> !links.Unlinked(t)
    {
      if Off(t) {
        forall l | l in links.lists ensures t !in links.lists[l] {
          assert t !in At(abs.lists, l);
        }
      }
    }

    ghost method Relist()
      requires RestLists(abs) == true && links.Valid() == true && |links.nodes| == cfg.tasks
      requires (forall l :: HasList(l) ==> l in links.lists) && Agrees(queueBitmap, links.lists) == true
      modifies `abs
      ensures Valid() && abs == old(abs).(lists := links.lists)
    {
      hide ListPool.Valid, Agrees, TasksAre, TimersAre, ObjectsAre;
      abs := abs.(lists := links.lists);
    }

    /** LOS_ListEmpty */
    method ListEmpty(l: ListId) returns (empty: bool)
      requires Valid() && HasList(l)
      ensures Valid() && (empty <==> At(abs.lists, l) == [])
    {
      hide TasksAre, LinksAre, TimersAre, ObjectsAre, Agrees;
      empty := IsEmpty(l);
    }

    method IsEmpty(l: ListId) returns (empty: bool)
      requires Valid() && HasList(l)
      ensures empty <==> At(abs.lists, l) == []
    {
      hide *;
      ListFacts();
      AtIs(abs.lists, l);
      empty := links.Empty(l);
    }

    /** OS_TCB_FROM_PENDLIST(LOS_DL_LIST_FIRST(...)) of a list that is not empty. */
    method ListFirst(l: ListId) returns (t: Tid)
      requires Valid() && HasList(l) && At(abs.lists, l) != []
      ensures Valid() && t == At(abs.lists, l)[0]
    {
      hide TasksAre, LinksAre, TimersAre, ObjectsAre, Agrees;
      t := FirstOf(l);
    }

    method FirstOf(l: ListId) returns (t: Tid)
      requires Valid() && HasList(l) && At(abs.lists, l) != []
      ensures t == At(abs.lists, l)[0]
    {
      hide *;
      ListFacts();
      AtIs(abs.lists, l);
      t := links.First(l);
    }

    /** OS_TCB_FROM_PENDLIST of the node behind that of `t`; none when that node is the head of the list. */
    method ListNext(l: ListId, t: Tid, ghost i: nat) returns (next: Option<Tid>)
      requires Valid() && HasList(l) && i < |At(abs.lists, l)| && At(abs.lists, l)[i] == t
      ensures Valid() && next == if i + 1 < |At(abs.lists, l)| then Some(At(abs.lists, l)[i + 1]) else None
    {
      hide TasksAre, LinksAre, TimersAre, ObjectsAre, Agrees;
      next := NextOf(l, t, i);
    }

    method NextOf(l: ListId, t: Tid, ghost i: nat) returns (next: Option<Tid>)
      requires Valid() && HasList(l) && i < |At(abs.lists, l)| && At(abs.lists, l)[i] == t
      ensures next == if i + 1 < |At(abs.lists, l)| then Some(At(abs.lists, l)[i + 1]) else None
    {
      hide *;
      ListFacts();
      AtIs(abs.lists, l);
      next := links.Next(l, t, i);
    }

    /** LOS_ListAdd on a list other than a ready list. */
    method ListAdd(l: ListId, t: Tid)
      requires Valid() && HasList(l) && !l.ReadyList? && t < cfg.tasks && Off(t)
      modifies Parts()
      ensures Valid() && abs == old(abs).(lists := PushFront(old(abs).lists, l, t))
    {
      hide *;
      ListFacts();
      OffIsUnlinked(t);
      links.Add(l, t);
      PushAgrees(queueBitmap, abs.lists, l, t);
      PushKeys(abs.lists, l, t);
      Relist();
    }

    /** LOS_ListTailInsert on a list other than a ready list. */
    method ListTailInsert(l: ListId, t: Tid)
      requires Valid() && HasList(l) && !l.ReadyList? && t < cfg.tasks && Off(t)
      modifies Parts()
      ensures Valid() && abs == old(abs).(lists := PushBack(old(abs).lists, l, t))
    {
      hide *;
      ListFacts();
      OffIsUnlinked(t);
      links.TailInsert(l, t);
      PushAgrees(queueBitmap, abs.lists, l, t);
      PushKeys(abs.lists, l, t);
      Relist();
    }

    /** LOS_ListDelete of a task that is on no ready list. */
    method ListDelete(t: Tid)
      requires Valid() && t < cfg.tasks && Waits(t)
      modifies Parts()
      ensures Valid() && abs == old(abs).(lists := Unlink(old(abs).lists, t))
    {
      hide *;
      WaitsFacts(t);
      ListFacts();
      OffIsUnlinked(t);
      links.Delete(t);
      UnlinkAgrees(queueBitmap, abs.lists, t);
      UnlinkKeys(abs.lists, t);
      Relist();
    }

    lemma WaitsFacts(t: Tid)
      requires Waits(t)
      ensures exists l :: t in At(abs.lists, l)
      ensures forall p :: t !in At(abs.lists, ReadyList(p))
    {
    }

    /** OsSchedPriQueueEnHead */
    method PriQueueEnHead(t: Tid, priority: nat)
      requires Valid() && t < cfg.tasks && priority <= LOWEST && Off(t)
      modifies Parts()
      ensures Valid() && abs == old(abs).(lists := PushFront(old(abs).lists, ReadyList(priority), t))
    {
      hide *;
      ListFacts();
      OffIsUnlinked(t);
      HasReady(priority);
      var empty := links.Empty(ReadyList(priority));
      ReadyAgrees(queueBitmap, abs.lists, priority, t);
      links.Add(ReadyList(priority), t);
      PushKeys(abs.lists, ReadyList(priority), t);
      assert RestLists(abs);
      if empty {
        queueBitmap := With(queueBitmap, Bit(priority));
      }
      Relist();
    }

    /** OsSchedPriQueueEnTail */
    method PriQueueEnTail(t: Tid, priority: nat)
      requires Valid() && t < cfg.tasks && priority <= LOWEST && Off(t)
      modifies Parts()
      ensures Valid() && abs == old(abs).(lists := PushBack(old(abs).lists, ReadyList(priority), t))
    {
      hide *;
      ListFacts();
      OffIsUnlinked(t);
      HasReady(priority);
      var empty := links.Empty(ReadyList(priority));
      ReadyAgrees(queueBitmap, abs.lists, priority, t);
      links.TailInsert(ReadyList(priority), t);
      PushKeys(abs.lists, ReadyList(priority), t);
      assert RestLists(abs);
      if empty {
        queueBitmap := With(queueBitmap, Bit(priority));
      }
      Relist();
    }

    /** OsSchedPriQueueDelete */
    method PriQueueDelete(t: Tid, priority: nat)
      requires Valid() && t < cfg.tasks && priority <= LOWEST && t in At(abs.lists, ReadyList(priority))
      modifies Parts()
      ensures Valid() && abs == old(abs).(lists := Unlink(old(abs).lists, t))
    {
      hide *;
      ListFacts();
      OffIsUnlinked(t);
      HasReady(priority);
      OnlyThere(t, ReadyList(priority));
      links.Delete(t);
      UnlinkKeys(abs.lists, t);
      var empty := links.Empty(ReadyList(priority));
      DeleteAgrees(queueBitmap, abs.lists, priority, t);
      assert RestLists(abs);
      if empty {
        queueBitmap := Without(queueBitmap, Bit(priority));
      }
      Relist();
    }

    /** OsGetTopTask */
    method TopTask() returns (t: Tid)
      requires Valid()
      ensures Valid() && t == Top(abs)
    {
      hide TasksAre, LinksAre, TimersAre, ObjectsAre, Agrees, Top;
      t := FindTop();
    }

    method FindTop() returns (t: Tid)
      requires Valid()
      ensures t == Top(abs)
    {
      hide *;
      ListFacts();
      FirstList(queueBitmap, abs.lists);
      if queueBitmap != 0 {
        var priority := LeadingZeros(queueBitmap, 0);
        HasReady(priority);
        TopIs(abs, priority);
        t := links.First(ReadyList(priority));
      } else {
        IdleOnTop(abs);
        t := cfg.idle;
      }
    }

    // ---- Updates of the deadline queue ----

    /** Everything but the deadline queue stands for `k`. */
    ghost predicate RestTimers(k: Kernel)
      reads `runTask, `taskLock, `queueBitmap, `freeSems, `freeMuxes, `freeQueues
      reads tasks, links, links.nodes, links.headSet, sems, muxes, queues, events
    {
      && k.cfg == cfg && cfg.idle < cfg.tasks && k.run <= cfg.tasks && |tasks| == |k.tcbs| == cfg.tasks + 1
         && Separate() == true
      && TasksAre(k.tcbs) == true && runTask == tasks[k.run] && taskLock == k.lock
      && LinksAre(k.lists) == true && Agrees(queueBitmap, k.lists) == true
      && ObjectsAre(k.obj) == true
    }

    lemma TimerFacts()
      requires Valid()
      ensures RestTimers(abs) && sortLink.Valid() && sortLink.Entries() == abs.timers && |sortLink.items| == cfg.tasks
      ensures forall i :: 0 <= i < |sortLink.items| ==> sortLink.items[i] in sortLink.items && sortLink.items[i].id == i
      ensures forall i :: 0 <= i < |links.nodes| ==>
              links.nodes[i] != sortLink.sortLink && links.nodes[i] !in sortLink.nodes
      ensures forall x :: x in links.headSet ==> x != sortLink.sortLink && x !in sortLink.nodes
      ensures this in Parts() && sortLink in Parts() && sortLink.sortLink in Parts()
      ensures (forall x :: x in sortLink.nodes ==> x in Parts()) && (forall x :: x in sortLink.items ==> x in Parts())
    {
      hide Agrees, TasksAre, LinksAre, ObjectsAre, Times, Sorted;
    }

    ghost method Retime(q: seq<Entry>)
      requires RestTimers(abs) == true && sortLink.Valid() == true && sortLink.Entries() == q
               && |sortLink.items| == cfg.tasks
      modifies `abs
      ensures Valid() && abs == old(abs).(timers := q)
    {
      hide Agrees, TasksAre, LinksAre, ObjectsAre, SortLinkAttribute.Valid, Times;
      abs := abs.(timers := q);
    }

    /** OsAdd2SortLink(..., OS_SORT_LINK_TASK) */
    method TimerAdd(t: Tid, startTime: nat, waitTicks: nat)
      requires Valid() && t < cfg.tasks && !Timed(abs, t)
      requires Deadline(startTime, waitTicks, cfg.cyclesPerTick) < INVALID_TIME
      modifies Parts()
      ensures Valid()
      ensures abs == old(abs).(timers := Insert(old(abs).timers,
                                                Entry(t, Deadline(startTime, waitTicks, cfg.cyclesPerTick))))
    {
      hide *;
      NotTimed(t);
      TimerFacts();
      sortLink.Add(sortLink.items[t], startTime, waitTicks, cfg.cyclesPerTick);
      Retime(Insert(abs.timers, Entry(t, Deadline(startTime, waitTicks, cfg.cyclesPerTick))));
    }

    /** OsDeleteSortLink(..., OS_SORT_LINK_TASK) */
    method TimerDelete(t: Tid)
      requires Valid() && t < cfg.tasks
      modifies Parts()
      ensures Valid() && abs == old(abs).(timers := Remove(old(abs).timers, t))
    {
      hide *;
      TimerFacts();
      sortLink.Delete(sortLink.items[t]);
      Retime(Remove(abs.timers, t));
    }

    /** The record at the head of the deadline queue, unless the queue is empty. */
    method TimerHead() returns (x: SortLinkList?)
      requires Valid()
      ensures Valid()
      ensures if abs.timers == [] then x == null
              else x != null && abs.timers[0] == Entry(x.id, x.responseTime) && x.id < cfg.tasks
    {
      HeadFacts();
      hide *;
      x := sortLink.FirstOrNone();
    }

    lemma HeadFacts()
      requires Valid()
      ensures sortLink.Chained() && (sortLink.order == [] <==> abs.timers == [])
      ensures sortLink.order != [] ==>
                abs.timers[0] == Entry(sortLink.order[0].id, sortLink.order[0].responseTime)
                    && sortLink.order[0].id < cfg.tasks
    {
      hide Agrees, TasksAre, LinksAre, ObjectsAre;
      if sortLink.order != [] {
        assert sortLink.order[0] in sortLink.items;
      }
    }

    lemma NotTimed(t: Tid)
      requires !Timed(abs, t)
      ensures !Linked(abs.timers, t)
    {
    }

    // ---- Updates of the scheduler's own words ----

    /** Everything but the scheduler's own words stands for `k`. */
    ghost predicate RestWords(k: Kernel)
      reads `queueBitmap, `freeSems, `freeMuxes, `freeQueues
      reads tasks, links, links.nodes, links.headSet, sortLink, sortLink.sortLink, sortLink.nodes, sortLink.items
      reads sems, muxes, queues, events
    {
      && k.cfg == cfg && cfg.idle < cfg.tasks && |tasks| == |k.tcbs| == cfg.tasks + 1 && Separate() == true
      && TasksAre(k.tcbs) == true
      && LinksAre(k.lists) == true && Agrees(queueBitmap, k.lists) == true
      && TimersAre(k.timers) == true
      && ObjectsAre(k.obj) == true
    }

    lemma WordFacts()
      requires Valid()
      ensures RestWords(abs) && abs.run <= cfg.tasks && |tasks| == cfg.tasks + 1
      ensures runTask == tasks[abs.run] && taskLock == abs.lock && this in Parts()
    {
      hide TasksAre, LinksAre, TimersAre, ObjectsAre, Agrees;
    }

    ghost method Reword(run: Tid, lock: nat, now: nat)
      requires RestWords(abs) == true && run <= cfg.tasks && |tasks| == cfg.tasks + 1 && runTask == tasks[run]
               && taskLock == lock
      modifies `abs
      ensures Valid() && abs == old(abs).(run := run, lock := lock, now := now)
    {
      hide TasksAre, LinksAre, TimersAre, ObjectsAre, Agrees;
      abs := abs.(run := run, lock := lock, now := now);
    }

    method SetRun(t: Tid)
      requires Valid() && t <= cfg.tasks
      modifies Parts()
      ensures Valid() && abs == old(abs).(run := t)
    {
      hide *;
      WordFacts();
      runTask := tasks[t];
      Reword(t, abs.lock, abs.now);
    }

    method SetLock(n: nat)
      requires Valid()
      modifies Parts()
      ensures Valid() && abs == old(abs).(lock := n)
    {
      hide *;
      WordFacts();
      taskLock := n;
      Reword(abs.run, n, abs.now);
    }

    /** The clock is read; it is not part of the kernel's memory. */
    ghost method ReadClock(now: nat)
      requires Valid()
      modifies Parts()
      ensures Valid() && abs == old(abs).(now := now)
    {
      hide *;
      WordFacts();
      Reword(abs.run, abs.lock, now);
    }

    // ---- Updates of the objects ----

    /** Everything but the objects stands for `k`. */
    ghost predicate RestObjects(k: Kernel)
      reads `runTask, `taskLock, `queueBitmap
      reads tasks, links, links.nodes, links.headSet, sortLink, sortLink.sortLink, sortLink.nodes, sortLink.items
    {
      && k.cfg == cfg && cfg.idle < cfg.tasks && k.run <= cfg.tasks && |tasks| == |k.tcbs| == cfg.tasks + 1
         && Separate() == true
      && TasksAre(k.tcbs) == true && runTask == tasks[k.run] && taskLock == k.lock
      && LinksAre(k.lists) == true && Agrees(queueBitmap, k.lists) == true
      && TimersAre(k.timers) == true
    }

    lemma ObjectFacts()
      requires Valid()
      ensures RestObjects(abs)
      ensures sems[..] == abs.obj.sems && muxes[..] == abs.obj.muxes && queues[..] == abs.obj.queues
              && events[..] == abs.obj.events
      ensures freeSems == abs.obj.semFree && freeMuxes == abs.obj.muxFree && freeQueues == abs.obj.queueFree
      ensures this in Parts() && sems in Parts() && muxes in Parts() && queues in Parts() && events in Parts()
    {
      hide TasksAre, LinksAre, TimersAre, Agrees;
    }

    ghost method Reobject(o: Objects)
      requires RestObjects(abs) == true
      requires sems[..] == o.sems && muxes[..] == o.muxes && queues[..] == o.queues && events[..] == o.events
      requires freeSems == o.semFree && freeMuxes == o.muxFree && freeQueues == o.queueFree
      modifies `abs
      ensures Valid() && abs == old(abs).(obj := o)
    {
      hide TasksAre, LinksAre, TimersAre, Agrees;
      abs := abs.(obj := o);
    }

    method StoreSem(s: nat, x: Sem)
      requires Valid() && s < sems.Length
      modifies Parts()
      ensures Valid() && abs == PutSem(old(abs), s, x)
    {
      hide *;
      ObjectFacts();
      sems[s] := x;
      SemPut(abs, s, x);
      Reobject(abs.obj.(sems := abs.obj.sems[s := x]));
    }

    method StoreMux(m: nat, x: Mux)
      requires Valid() && m < muxes.Length
      modifies Parts()
      ensures Valid() && abs == PutMux(old(abs), m, x)
    {
      hide *;
      ObjectFacts();
      muxes[m] := x;
      MuxPut(abs, m, x);
      Reobject(abs.obj.(muxes := abs.obj.muxes[m := x]));
    }

    method StoreQueue(q: nat, x: Queue)
      requires Valid() && q < queues.Length
      modifies Parts()
      ensures Valid() && abs == PutQueue(old(abs), q, x)
    {
      hide *;
      ObjectFacts();
      queues[q] := x;
      QueuePut(abs, q, x);
      Reobject(abs.obj.(queues := abs.obj.queues[q := x]));
    }

    method StoreEvent(e: nat, x: Event)
      requires Valid() && e < events.Length
      modifies Parts()
      ensures Valid() && abs == PutEvent(old(abs), e, x)
    {
      hide *;
      ObjectFacts();
      events[e] := x;
      EventPut(abs, e, x);
      Reobject(abs.obj.(events := abs.obj.events[e := x]));
    }

    /** The free lists of the object tables. */
    method StoreFree(s: seq<nat>, m: seq<nat>, q: seq<nat>)
      requires Valid()
      modifies Parts()
      ensures Valid() && abs == old(abs).(obj := old(abs).obj.(semFree := s, muxFree := m, queueFree := q))
    {
      hide *;
      ObjectFacts();
      freeSems, freeMuxes, freeQueues := s, m, q;
      Reobject(abs.obj.(semFree := s, muxFree := m, queueFree := q));
    }

    lemma ObjectAt()
      requires Valid()
      ensures |abs.obj.sems| == sems.Length && forall s :: 0 <= s < sems.Length ==> sems[s] == abs.obj.sems[s]
      ensures |abs.obj.muxes| == muxes.Length && forall m :: 0 <= m < muxes.Length ==> muxes[m] == abs.obj.muxes[m]
      ensures |abs.obj.queues| == queues.Length && forall q :: 0 <= q < queues.Length ==> queues[q] == abs.obj.queues[q]
      ensures |abs.obj.events| == events.Length && forall e :: 0 <= e < events.Length ==> events[e] == abs.obj.events[e]
      ensures freeSems == abs.obj.semFree && freeMuxes == abs.obj.muxFree && freeQueues == abs.obj.queueFree
    {
      hide TasksAre, LinksAre, TimersAre, Agrees;
    }

    lemma HasReady(p: nat)
      ensures p <= LOWEST ==> HasList(ReadyList(p))
    {
    }

    lemma OnlyThere(t: Tid, l: ListId)
      requires links.Valid() && links.lists == abs.lists && t in At(abs.lists, l)
      ensures forall m :: m != l ==> t !in At(abs.lists, m)
    {
    }
  }

  lemma TopIs(k: Kernel, p: nat)
    requires p <= LOWEST && At(k.lists, ReadyList(p)) != []
    requires forall q :: 0 <= q < p ==> At(k.lists, ReadyList(q)) == []
    ensures Top(k) == At(k.lists, ReadyList(p))[0] && ReadyList(p) in k.lists
            && k.lists[ReadyList(p)] == At(k.lists, ReadyList(p))
  {
    TopFromIs(k, 0, p);
  }

  lemma IdleOnTop(k: Kernel)
    requires forall p :: 0 <= p <= LOWEST ==> At(k.lists, ReadyList(p)) == []
    ensures Top(k) == k.cfg.idle
  {
    TopFromIdle(k, 0);
  }

  lemma AtIs(m: Lists, l: ListId)
    requires l in m
    ensures At(m, l) == m[l]
  {
  }

  lemma PushKeys(m: Lists, l: ListId, t: Tid)
    requires l in m
    ensures PushFront(m, l, t).Keys == m.Keys && PushBack(m, l, t).Keys == m.Keys
    ensures forall k :: k in m ==> k in PushFront(m, l, t) && k in PushBack(m, l, t)
    ensures At(PushFront(m, l, t), l) != [] && At(PushBack(m, l, t), l) != []
  {
  }

  lemma UnlinkKeys(m: Lists, t: Tid)
    ensures Unlink(m, t).Keys == m.Keys && forall k :: k in m ==> k in Unlink(m, t)
  {
  }

  lemma SameReady(b: bv32, m: Lists, m': Lists)
    requires Agrees(b, m) && forall p :: 0 <= p <= LOWEST ==> At(m', ReadyList(p)) == At(m, ReadyList(p))
    ensures Agrees(b, m')
  {
    hide Has;
  }

  lemma PushAgrees(b: bv32, m: Lists, l: ListId, t: Tid)
    requires Agrees(b, m) && !l.ReadyList?
    ensures Agrees(b, PushFront(m, l, t)) && Agrees(b, PushBack(m, l, t))
  {
    SameReady(b, m, PushFront(m, l, t));
    SameReady(b, m, PushBack(m, l, t));
  }

  lemma UnlinkAgrees(b: bv32, m: Lists, t: Tid)
    requires Agrees(b, m) && forall p :: t !in At(m, ReadyList(p))
    ensures Agrees(b, Unlink(m, t))
  {
    SameReady(b, m, Unlink(m, t));
  }

  lemma ReadyAgrees(b: bv32, m: Lists, p: nat, t: Tid)
    requires Agrees(b, m) && p <= LOWEST && ReadyList(p) in m
    ensures var c := if m[ReadyList(p)] == [] then With(b, Bit(p)) else b;
            Agrees(c, PushFront(m, ReadyList(p), t)) && Agrees(c, PushBack(m, ReadyList(p), t))
  {
    hide Has, With, Bit;
    forall q | 0 <= q <= LOWEST ensures Has(With(b, Bit(p)), q) <==> q == p || Has(b, q) {
      SetEffect(b, p, q);
    }
  }

  lemma DeleteAgrees(b: bv32, m: Lists, p: nat, t: Tid)
    requires Agrees(b, m) && p <= LOWEST && ReadyList(p) in m && t in At(m, ReadyList(p))
    requires forall l :: l != ReadyList(p) ==> t !in At(m, l)
    ensures ReadyList(p) in Unlink(m, t)
    ensures Agrees(if Unlink(m, t)[ReadyList(p)] == [] then Without(b, Bit(p)) else b, Unlink(m, t))
  {
    hide Has, Without, Bit;
    forall q | 0 <= q <= LOWEST ensures Has(Without(b, Bit(p)), q) <==> q != p && Has(b, q) {
      ClearEffect(b, p, q);
    }
    assert forall q :: 0 <= q <= LOWEST && q != p ==> At(Unlink(m, t), ReadyList(q)) == At(m, ReadyList(q));
  }

  ghost function PutSem(k: Kernel, s: nat, x: Sem): Kernel {
    if s < |k.obj.sems| then k.(obj := k.obj.(sems := k.obj.sems[s := x])) else k
  }

  ghost function PutMux(k: Kernel, m: nat, x: Mux): Kernel {
    if m < |k.obj.muxes| then k.(obj := k.obj.(muxes := k.obj.muxes[m := x])) else k
  }

  ghost function PutQueue(k: Kernel, q: nat, x: Queue): Kernel {
    if q < |k.obj.queues| then k.(obj := k.obj.(queues := k.obj.queues[q := x])) else k
  }

  ghost function PutEvent(k: Kernel, e: nat, x: Event): Kernel {
    if e < |k.obj.events| then k.(obj := k.obj.(events := k.obj.events[e := x])) else k
  }

  lemma SemPut(k: Kernel, s: nat, x: Sem)
    requires s < |k.obj.sems|
    ensures PutSem(k, s, x) == k.(obj := k.obj.(sems := k.obj.sems[s := x]))
  {
  }

  lemma MuxPut(k: Kernel, m: nat, x: Mux)
    requires m < |k.obj.muxes|
    ensures PutMux(k, m, x) == k.(obj := k.obj.(muxes := k.obj.muxes[m := x]))
  {
  }

  lemma QueuePut(k: Kernel, q: nat, x: Queue)
    requires q < |k.obj.queues|
    ensures PutQueue(k, q, x) == k.(obj := k.obj.(queues := k.obj.queues[q := x]))
  {
  }

  lemma EventPut(k: Kernel, e: nat, x: Event)
    requires e < |k.obj.events|
    ensures PutEvent(k, e, x) == k.(obj := k.obj.(events := k.obj.events[e := x]))
  {
  }

  ghost function PutTcb(k: Kernel, t: Tid, c: Tcb): Kernel {
    if t < |k.tcbs| then SetTcb(k, t, c) else k
  }

  const NO_TCB := Tcb(NO_FLAGS, 0, 0, 0, 0, 0, 0, NoCall)

  ghost function TcbAt(k: Kernel, t: Tid): Tcb {
    if t < |k.tcbs| then k.tcbs[t] else NO_TCB
  }
}
