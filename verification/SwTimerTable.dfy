/** The software timers in place: an array of control blocks, a free list, and a deadline queue of list nodes. */
module SwTimerTable {
  import opened Sequences
  import opened Deadlines
  import opened SortLink
  import opened SwTimer
  import opened SwTimerProofs
  import opened SwTimerRuns

  /** SWTMR_CTRL_S; the free list its `pstNext` threads is a sequence of slots in the table. */
  class SwtmrCtrl {
    var state: State
    var mode: Mode
    var insensitive: bool
    var timerId: nat
    var count: nat
    var interval: nat
    var arg: nat
    var handler: nat
    const sortList: SortLinkList

    constructor (slot: nat)
      ensures fresh(sortList) && fresh(sortList.node) && sortList.id == slot && sortList.node.entry == Some(slot)
      ensures sortList.responseTime == INVALID_TIME
      ensures Record() == Timer(Unused, Once, false, 0, 0, 0, 0, 0)
    {
      state, mode, insensitive, timerId, count, interval, arg, handler := Unused, Once, false, 0, 0, 0, 0, 0;
      sortList := new SortLinkList(slot);
    }

    ghost function Record(): Timer
      reads this
    {
      Timer(state, mode, insensitive, timerId, count, interval, handler, arg)
    }

    lemma RecordIs()
      ensures Record() == Timer(state, mode, insensitive, timerId, count, interval, handler, arg)
    {
    }
  }

  /** The zeroed array of records. */
  method AllocRecords(n: nat) returns (ts: seq<SwtmrCtrl>, ls: seq<SortLinkList>)
    ensures |ts| == |ls| == n && NoDup(ts) && Wired(ls)
    ensures forall i :: 0 <= i < n ==> fresh(ts[i]) && fresh(ls[i]) && ts[i].sortList == ls[i]
    ensures forall i :: 0 <= i < n ==>
              ts[i].Record() == Timer(Unused, Once, false, 0, 0, 0, 0, 0) && ls[i].responseTime == INVALID_TIME
  {
    ts, ls := [], [];
    while |ts| < n
      invariant |ts| == |ls| <= n && NoDup(ts) && Wired(ls)
      invariant forall i :: 0 <= i < |ts| ==> fresh(ts[i]) && fresh(ls[i]) && ts[i].sortList == ls[i]
      invariant forall i :: 0 <= i < |ts| ==>
                  ts[i].Record() == Timer(Unused, Once, false, 0, 0, 0, 0, 0) && ls[i].responseTime == INVALID_TIME
    {
      var t := new SwtmrCtrl(|ts|);
      ls := ls + [t.sortList];
      ts := ts + [t];
    }
  }

  /** The loop of OsSwtmrInit that numbers the records and chains them. */
  method NumberRecords(ts: seq<SwtmrCtrl>) returns (free: seq<nat>)
    requires ts != [] && NoDup(ts)
    requires forall i :: 0 <= i < |ts| ==> ts[i].Record() == Timer(Unused, Once, false, 0, 0, 0, 0, 0)
    modifies ts
    ensures |free| == |ts| && forall i :: 0 <= i < |ts| ==> free[i] == i
    ensures forall i :: 0 <= i < |ts| ==> ts[i].Record() == Timer(Unused, Once, false, i, 0, 0, 0, 0)
  {
    free := [0];
    for index := 1 to |ts|
      invariant |free| == index && forall i :: 0 <= i < index ==> free[i] == i
      invariant forall i :: 0 <= i < index ==> ts[i].Record() == Timer(Unused, Once, false, i, 0, 0, 0, 0)
      invariant forall i :: index <= i < |ts| ==> ts[i].Record() == Timer(Unused, Once, false, 0, 0, 0, 0, 0)
    {
      ts[index].timerId := index;
      free := free + [index];
    }
  }

  class SwtmrTable {
    const cfg: Config
    const timers: seq<SwtmrCtrl>
    const aligns: array<Align>
    const link: SortLinkAttribute
    var freeList: seq<nat>
    /** LOS_TaskIsRunning */
    var running: bool
    /** What has been written to the handler queue. */
    var posted: seq<Fired>
    ghost var abs: Timers

    /** The records and the alignment data hold these values. */
    ghost predicate RecordsAre(ts: seq<Timer>, data: seq<Align>)
      reads timers, aligns
    {
      && NoDup(timers)
      && |timers| == cfg.limit == |ts| && aligns.Length == cfg.limit
      && (forall i :: 0 <= i < cfg.limit ==> timers[i].Record() == ts[i])
      && aligns[..] == data
    }

    /** The deadline queue is sound and holds these entries. */
    ghost predicate QueueIs(q: seq<Entry>)
      reads link, link.sortLink, link.nodes, link.items
    {
      && |timers| == cfg.limit == |link.items|
      && (forall i :: 0 <= i < cfg.limit ==> timers[i].sortList == link.items[i])
      && link.Valid() && link.Entries() == q
    }

    ghost predicate Valid()
      reads `abs, `running, `freeList, timers, aligns, link, link.sortLink, link.nodes, link.items
    {
      && SwTimer.Shape(abs) && abs.cfg == cfg && abs.running == running && abs.free == freeList
      && RecordsAre(abs.timers, abs.aligns) && QueueIs(abs.link)
    }

    constructor (cfg: Config, ts: seq<SwtmrCtrl>, ls: seq<SortLinkList>, free: seq<nat>)
      requires 0 < cfg.limit == |ts| == |ls| && Wired(ls) && cfg.OK() && NoDup(ts) && free == Init(cfg).free
      requires forall i :: 0 <= i < cfg.limit ==> ts[i].sortList == ls[i] && ls[i].responseTime == INVALID_TIME
      requires forall i :: 0 <= i < cfg.limit ==> ts[i].Record() == Timer(Unused, Once, false, i, 0, 0, 0, 0)
      ensures Valid() && abs == Init(cfg) && posted == []
    {
      hide *;
      this.cfg := cfg;
      timers := ts;
      aligns := new Align[cfg.limit](_ => NO_ALIGN);
      link := new SortLinkAttribute(ls);
      freeList := free;
      posted := [];
      running := false;
      abs := Init(cfg);
      new;
      InitValid();
    }

    lemma InitValid()
      requires cfg.OK() && abs == Init(cfg) && |timers| == |link.items| == aligns.Length == cfg.limit && NoDup(timers)
      requires !running && freeList == abs.free && link.Valid() && link.order == []
      requires forall i :: 0 <= i < cfg.limit ==>
                 && timers[i].sortList == link.items[i] && aligns[i] == NO_ALIGN
                 && timers[i].Record() == Timer(Unused, Once, false, i, 0, 0, 0, 0)
      ensures Valid()
    {
      hide SortLinkAttribute.Valid, NoDup, Nodes, Times;
    }

    /** The response time in a record is the deadline of the queue, or the invalid time of an unlinked one. */
    lemma TimeOfItem(j: nat)
      requires Valid() && j < cfg.limit
      ensures TimeOf(abs.link, j) == timers[j].sortList.responseTime
    {
      link.EntriesUnique();
      if timers[j].sortList in link.order {
        var k :| 0 <= k < |link.order| && link.order[k] == timers[j].sortList;
        TimeOfAt(abs.link, k);
      } else {
        TimeOfNone(abs.link, j);
      }
    }

    /** OsSortLinkGetTargetExpireTime */
    method TargetExpireTime(currTime: nat, j: nat) returns (ticks: nat)
      requires Valid() && j < cfg.limit
      ensures ticks == Left(abs, currTime, j)
    {
      TimeOfItem(j);
      if currTime >= timers[j].sortList.responseTime {
        return 0;
      }
      return WholeTicks(cfg, timers[j].sortList.responseTime - currTime) % WORD_RANGE;
    }

    lemma RecordOf(i: nat)
      requires Valid() && i < cfg.limit
      ensures var t := timers[i];
              && abs.timers[i] == Timer(t.state, t.mode, t.insensitive, t.timerId, t.count, t.interval, t.handler,
                                        t.arg)
              && abs.aligns[i] == aligns[i]
    {
    }

    /** One round of the search of OsSwtmrFindAlignPos. */
    method LookAt(i: nat, j: nat, large: Option<nat>, little: Option<nat>) returns (found: Found)
      requires Valid() && i < cfg.limit && j < cfg.limit && PickOK(abs, large, little)
      ensures found == Look(abs, i, j, large, little)
    {
      RecordOf(i);
      RecordOf(j);
      hide NoDup;
      var mine, other := aligns[i], aligns[j];
      found := Nearest(large, little);
      if other.isAligned && other.canAlign {
        if timers[j].interval == timers[i].interval {
          return SameInterval;
        }
        if mine.canMultiple && other.times != 0 {
          if mine.times == 0 {
            return NoTimes;
          }
          if other.times >= mine.times && other.times % mine.times == 0 {
            if large.None? || aligns[large.value].times / mine.times > other.times / mine.times {
              found := Nearest(Some(j), little);
            }
          } else if other.times < mine.times && mine.times % other.times == 0 {
            if little.None? || mine.times / aligns[little.value].times > mine.times / other.times {
              found := Nearest(large, Some(j));
            }
          }
        }
      }
    }

    lemma QueueFacts()
      requires Valid()
      ensures link.Chained() && |link.order| == |abs.link| && PickOK(abs, None, None) && SwTimer.Shape(abs)
              && abs.cfg == cfg
    {
    }

    lemma QueueAt(k: nat)
      requires Valid() && k < |link.order|
      ensures |link.order| == |abs.link| && link.order[k].id == abs.link[k].id < cfg.limit
    {
      assert abs.link[k] in abs.link;
    }

    /** The search loop of OsSwtmrFindAlignPos. */
    method FindNearest(i: nat) returns (found: Found)
      requires Valid() && i < cfg.limit
      ensures found == Search(abs, i, abs.link, None, None)
    {
      hide *;
      QueueFacts();
      SearchNone(abs, i, None, None);
      found := Nearest(None, None);
      var cur := link.FirstOrNone();
      ghost var k := 0;
      while cur != null
        invariant 0 <= k <= |link.order|
        invariant if k < |link.order| then cur == link.order[k] else cur == null
        invariant found.Nearest? && PickOK(abs, found.large, found.little)
        invariant Search(abs, i, abs.link, None, None) == Search(abs, i, abs.link[k..], found.large, found.little)
        decreases |link.order| - k
      {
        QueueAt(k);
        SearchOne(abs, i, k, found.large, found.little);
        found := LookAt(i, cur.id, found.large, found.little);
        if !found.Nearest? {
          return;
        }
        cur := link.Next(cur, k);
        k := k + 1;
      }
      SearchNone(abs, i, found.large, found.little);
    }

    /** OsSwtmrFindAlignPos: the count it leaves in the record. */
    method FindAlignPos(i: nat, currTime: nat) returns (count: nat)
      requires Valid() && Words(abs) && i < cfg.limit
      ensures count == AlignedCount(abs, i, currTime)
    {
      RecordOf(i);
      LimitOf();
      hide Valid, Search, AlignCount, Left;
      var found := FindNearest(i);
      match found {
        case SameInterval => count := 0;
        case NoTimes => count := timers[i].count;
        case Nearest(Some(j), _) =>
          RecordOf(j);
          var left := TargetExpireTime(currTime, j);
          count := AlignCount(timers[i].interval, timers[j].interval, left);
        case Nearest(None, Some(j)) => count := TargetExpireTime(currTime, j);
        case Nearest(None, None) => count := timers[i].count;
      }
    }

    lemma LimitOf()
      requires Valid()
      ensures SwTimer.Shape(abs) && abs.cfg == cfg && 0 < cfg.limit && 0 < cfg.rate && abs.running == running
              && abs.free == freeList
      ensures RecordsAre(abs.timers, abs.aligns) && QueueIs(abs.link)
      ensures |timers| == |link.items| == aligns.Length == |abs.timers| == |abs.aligns| == cfg.limit
      ensures link.Valid() && link.Entries() == abs.link && forall e :: e in abs.link ==> e.id < cfg.limit
      ensures forall i :: 0 <= i < cfg.limit ==> timers[i].sortList == link.items[i]
    {
      hide SortLinkAttribute.Valid, Times;
    }

    // ---- Single updates ----

    method SetStateCount(i: nat, state: State, count: nat)
      requires Valid() && i < cfg.limit
      modifies this`abs, timers[i]
      ensures Valid() && abs == SetTimer(old(abs), i, old(abs).timers[i].(state := state, count := count))
    {
      hide QueueIs;
      timers[i].state := state;
      timers[i].count := count;
      abs := SetTimer(abs, i, abs.timers[i].(state := state, count := count));
    }

    method SetAlignOf(i: nat, a: Align)
      requires Valid() && i < cfg.limit
      modifies this`abs, aligns
      ensures Valid() && abs == SetAlign(old(abs), i, a)
    {
      hide QueueIs;
      aligns[i] := a;
      abs := SetAlign(abs, i, a);
    }

    /** OsAdd2SortLink */
    method Enqueue(i: nat, currTime: nat)
      requires Valid() && i < cfg.limit && !Linked(abs.link, i)
      requires Deadline(currTime, abs.timers[i].count, cfg.PerTick()) < INVALID_TIME
      modifies this`abs, link, link.sortLink, link.nodes, link.items
      ensures Valid()
      ensures abs == old(abs).(link := Insert(old(abs).link,
                                              Entry(i, Deadline(currTime, old(abs).timers[i].count, cfg.PerTick()))))
    {
      hide *;
      LimitOf();
      RecordOf(i);
      ItemId(i);
      link.Add(timers[i].sortList, currTime, timers[i].count, cfg.PerTick());
      Requeue(Insert(abs.link, Entry(i, Deadline(currTime, timers[i].count, cfg.PerTick()))));
    }

    /** OsDeleteSortLink */
    method Dequeue(i: nat)
      requires Valid() && i < cfg.limit
      modifies this`abs, link, link.sortLink, link.nodes, link.items
      ensures Valid() && abs == old(abs).(link := Remove(old(abs).link, i))
    {
      hide *;
      LimitOf();
      ItemId(i);
      link.Delete(timers[i].sortList);
      Requeue(Remove(abs.link, i));
    }

    ghost method Requeue(q: seq<Entry>)
      requires SwTimer.Shape(abs) && abs.cfg == cfg && abs.running == running && abs.free == freeList
      requires RecordsAre(abs.timers, abs.aligns)
      requires |timers| == |link.items| == cfg.limit && forall i :: 0 <= i < cfg.limit ==>
               timers[i].sortList == link.items[i]
      requires link.Valid() && link.Entries() == q && forall e :: e in q ==> e.id < cfg.limit
      modifies this`abs
      ensures Valid() && abs == old(abs).(link := q)
    {
      hide RecordsAre, SortLinkAttribute.Valid, Times;
      abs := abs.(link := q);
    }

    lemma ItemId(i: nat)
      requires Valid() && i < cfg.limit
      ensures i < |timers| && timers[i].sortList.id == i && timers[i].sortList in link.items
    {
    }

    ghost method ReadClock(now: nat)
      requires Valid()
      modifies this`abs
      ensures Valid() && abs == old(abs).(now := now)
    {
      abs := abs.(now := now);
    }

    // ---- The operations ----

    /** The alignment of a timer that may be aligned and is not yet. */
    method AlignOnce(i: nat, currTime: nat)
      requires Valid() && Words(abs) && i < cfg.limit
      modifies this`abs, timers[i], aligns
      ensures Valid() && SwTimer.Shape(old(abs)) && Words(old(abs))
      ensures abs == Realigned(old(abs), i, currTime)
    {
      LimitOf();
      RecordOf(i);
      if aligns[i].canAlign && !aligns[i].isAligned {
        SetAlignOf(i, aligns[i].(isAligned := true));
        var count := FindAlignPos(i, currTime);
        SetStateCount(i, timers[i].state, count);
      }
    }

    /** OsSwtmrStart; the response timer is programmed afterwards (OsSchedUpdateExpireTime). */
    method StartTimer(i: nat, currTime: nat)
      requires Valid() && Words(abs) && i < cfg.limit && !Linked(abs.link, i)
      requires Deadline(currTime, WORD_RANGE, cfg.PerTick()) < INVALID_TIME
      modifies this`abs, timers[i], aligns, link, link.sortLink, link.nodes, link.items
      ensures Valid() && abs == SwTimer.StartTimer(old(abs), i, currTime)
    {
      LimitOf();
      RecordOf(i);
      CountFits(abs, i, currTime);
      StartShape(abs, i, currTime);
      hide Valid, AlignedCount, SwTimer.StartTimer, Deadline, Insert, SortLinkAttribute.Valid, Linked;
      hide SwTimer.Shape, Words, RecordsAre, QueueIs, SwtmrCtrl.Record, Config.OK, Config.PerTick, Times,
          SortLinkAttribute.Entries;
      SetStateCount(i, Ticking, timers[i].interval);
      ReadClock(currTime);
      AlignOnce(i, currTime);
      Enqueue(i, currTime);
    }

    /** OsSwtmrStop */
    method StopTimer(i: nat)
      requires Valid() && i < cfg.limit
      modifies this`abs, timers[i], aligns, link, link.sortLink, link.nodes, link.items
      ensures Valid() && SwTimer.Shape(old(abs)) && |old(abs).timers| == |old(abs).aligns| == cfg.limit
      ensures abs == SwTimer.StopTimer(old(abs), i)
    {
      LimitOf();
      RecordOf(i);
      Dequeue(i);
      SetStateCount(i, Created, timers[i].count);
      if running {
        LimitOf();
        RecordOf(i);
        SetAlignOf(i, aligns[i].(isAligned := false));
      }
    }

    /** OsSwtmrDelete, and the identifier the slot is known by from now on. */
    method FreeTimer(i: nat, id: nat)
      requires Valid() && i < cfg.limit
      modifies this`abs, this`freeList, timers, aligns
      ensures Valid() && SwTimer.Shape(old(abs)) && |old(abs).timers| == |old(abs).aligns| == cfg.limit
      ensures var s := SwTimer.FreeTimer(old(abs), i); abs == SetTimer(s, i, s.timers[i].(id := id))
    {
      LimitOf();
      RecordOf(i);
      PushFree(i);
      SetStateCount(i, Unused, timers[i].count);
      SetAlignOf(i, NO_ALIGN);
      SetId(i, id);
    }

    method PushFree(i: nat)
      requires Valid() && i < cfg.limit
      modifies this`abs, this`freeList
      ensures Valid() && abs == old(abs).(free := [i] + old(abs).free)
    {
      hide RecordsAre, QueueIs;
      freeList := [i] + freeList;
      abs := abs.(free := freeList);
    }

    method SetId(i: nat, id: nat)
      requires Valid() && i < cfg.limit
      modifies this`abs, timers[i]
      ensures Valid() && abs == SetTimer(old(abs), i, old(abs).timers[i].(id := id))
    {
      hide QueueIs;
      timers[i].timerId := id;
      abs := SetTimer(abs, i, abs.timers[i].(id := id));
    }

    /** OsSwtmrTimeoutHandle after the handler has been queued. */
    method ExpireTimer(i: nat, currTime: nat)
      requires Valid() && Expirable(abs, i, currTime)
      modifies this`abs, this`freeList, timers, aligns, link, link.sortLink, link.nodes, link.items
      ensures Valid() && IsExpire(old(abs), i, currTime, abs)
    {
      LimitOf();
      RecordOf(i);
      hide Valid, Insert, AlignedCount, SwTimer.StartTimer, Config.MaxId, Deadline;
      match timers[i].mode {
        case Once =>
          var id := timers[i].timerId;
          FreeTimer(i, if id < cfg.MaxId() - cfg.limit then id + cfg.limit else id % cfg.limit);
        case Period => StartTimer(i, currTime);
        case NoSelfDelete => SetStateCount(i, Created, timers[i].count);
      }
    }

    /** OsSwtmrTimeoutHandle; queueing the handler never waits, and its failure is ignored. */
    method TimeoutHandle(i: nat, currTime: nat)
      requires Valid() && Expirable(abs, i, currTime)
      modifies this`abs, this`freeList, this`posted, timers, aligns, link, link.sortLink, link.nodes, link.items
      ensures Valid() && IsExpire(old(abs), i, currTime, abs)
      ensures posted == old(posted) + [Fired(i, old(abs).timers[i].handler, old(abs).timers[i].arg)]
    {
      LimitOf();
      RecordOf(i);
      posted := posted + [Fired(i, timers[i].handler, timers[i].arg)];
      hide *;
      ExpireTimer(i, currTime);
    }

    lemma QueueHead()
      requires Valid()
      ensures link.Chained() && (link.order == [] <==> abs.link == [])
      ensures link.order != [] ==>
                && abs.link[0] == Entry(link.order[0].id, link.order[0].responseTime)
                && link.order[0].id < cfg.limit
    {
      if link.order != [] {
        assert abs.link[0] in abs.link;
      }
    }

    /** OsSwtmrScan: `now` is the clock when the scan starts, `clock` its later readings. */
    method Scan(now: nat, clock: nat -> nat) returns (needSchedule: bool)
      requires Valid() && SwOK(abs) && Clock(clock, now) && ClockFits(clock, cfg)
      modifies this`abs, this`freeList, this`posted, timers, aligns, link, link.sortLink, link.nodes, link.items
      ensures Valid() && SwOK(old(abs)) && Clock(clock, now)
      ensures abs == SwTimerRuns.Scan(old(abs), now, clock, 0).0
      ensures posted == old(posted) + SwTimerRuns.Scan(old(abs), now, clock, 0).1
    {
      hide *;
      ghost var all, log := SwTimerRuns.Scan(abs, now, clock, 0), [];
      var n := 0;
      needSchedule := false;
      QueueHead();
      var sortList := link.FirstOrNone();
      while sortList != null && sortList.responseTime <= now
        invariant Valid() && SwOK(abs)
        invariant if abs.link == [] then sortList == null
                  else sortList != null && abs.link[0] == Entry(sortList.id, sortList.responseTime)
        invariant posted == old(posted) + log
        invariant all.0 == SwTimerRuns.Scan(abs, now, clock, n).0
                  && all.1 == log + SwTimerRuns.Scan(abs, now, clock, n).1
        decreases |DueSlots(abs.link, now)|
      {
        ghost var s := abs;
        var i := sortList.id;
        LimitOf();
        RoundOK(s, now, clock, n);
        Dequeue(i);
        TimeoutHandle(i, clock(n));
        log := log + [Fired(i, s.timers[i].handler, s.timers[i].arg)];
        n := n + 1;
        needSchedule := true;
        QueueHead();
        sortList := link.FirstOrNone();
      }
      ScanDone(abs, now, clock, n);
    }

    // ---- The calls ----

    /** The record of an identifier, if the identifier is current. */
    method Find(id: nat) returns (slot: Option<nat>)
      requires Valid()
      ensures SwTimer.Shape(abs) && slot == Slot(abs, id)
      ensures slot.Some? ==> slot.value < cfg.limit && abs.timers[slot.value].state == timers[slot.value].state
    {
      LimitOf();
      hide Config.MaxId;
      if id >= cfg.MaxId() {
        return None;
      }
      RecordOf(id % cfg.limit);
      if timers[id % cfg.limit].timerId != id {
        return None;
      }
      return Some(id % cfg.limit);
    }

    /** LOS_SwtmrCreate */
    method Create(interval: nat, mode: Mode, handler: nat, arg: nat, insensitive: bool) returns (ret: Ret)
      requires Valid()
      modifies this`abs, this`freeList, timers
      ensures Valid() && SwTimer.Shape(old(abs))
      ensures Out(abs, ret) == SwTimer.Create(old(abs), interval, mode, handler, arg, insensitive)
    {
      LimitOf();
      if interval == 0 {
        return Fail(IntervalNotSuited);
      }
      if handler == 0 {
        return Fail(PtrNull);
      }
      if freeList == [] {
        return Fail(MaxSize);
      }
      var i := freeList[0];
      assert i in freeList;
      RecordOf(i);
      var id := timers[i].timerId;
      PopFree();
      RecordOf(i);
      Fill(timers[i], i, Timer(Created, mode, insensitive, id, 0, interval, handler, arg));
      ret := Id(id);
    }

    method PopFree()
      requires Valid() && freeList != []
      modifies this`abs, this`freeList
      ensures Valid() && old(abs).free != [] && abs == old(abs).(free := old(abs).free[1..])
    {
      hide RecordsAre, QueueIs;
      assert forall j :: j in freeList[1..] ==> j in freeList;
      freeList := freeList[1..];
      abs := abs.(free := freeList);
    }

    method Fill(t: SwtmrCtrl, ghost i: nat, r: Timer)
      requires Valid() && i < cfg.limit && t == timers[i] && r.id == t.timerId
      modifies this`abs, t
      ensures Valid() && abs == SetTimer(old(abs), i, r)
    {
      hide *;
      Around(i);
      t.handler, t.mode, t.interval, t.count, t.arg := r.handler, r.mode, r.interval, r.count, r.arg;
      t.insensitive, t.state := r.insensitive, r.state;
      t.RecordIs();
      Rerecord(i, r);
    }

    /** All records but that of timer `i` hold what `ts` says. */
    ghost predicate OtherRecords(i: nat, ts: seq<Timer>)
      reads set j | 0 <= j < |timers| && j != i :: timers[j]
    {
      && NoDup(timers) && i < |timers| == cfg.limit == |ts|
      && forall j :: 0 <= j < cfg.limit && j != i ==> timers[j].Record() == ts[j]
    }

    /** Everything but the records is as `abs` says. */
    ghost predicate RestRecords()
      reads `abs, `running, `freeList, aligns, link, link.sortLink, link.nodes, link.items
    {
      && SwTimer.Shape(abs) && abs.cfg == cfg && abs.running == running && abs.free == freeList
      && aligns.Length == cfg.limit && aligns[..] == abs.aligns && QueueIs(abs.link) == true
    }

    lemma Around(i: nat)
      requires Valid() && i < cfg.limit
      ensures |timers| == cfg.limit && OtherRecords(i, abs.timers) && RestRecords()
      ensures forall j :: 0 <= j < |timers| && j != i ==> timers[j] != timers[i]
    {
      hide QueueIs;
    }

    ghost method Rerecord(i: nat, r: Timer)
      requires OtherRecords(i, abs.timers) == true && RestRecords() == true && i < |timers| && timers[i].Record() == r
      modifies `abs
      ensures Valid() && i < |old(abs).timers| && abs == SetTimer(old(abs), i, r)
    {
      hide QueueIs, SwtmrCtrl.Record;
      abs := SetTimer(abs, i, r);
    }

    /** What LOS_SwtmrStart records about alignment. */
    method RecordAlign(i: nat)
      requires Valid() && i < cfg.limit
      modifies this`abs, aligns
      ensures Valid() && i < |old(abs).timers| == |old(abs).aligns| && abs == NoteAlign(old(abs), i)
    {
      LimitOf();
      RecordOf(i);
      if timers[i].insensitive && timers[i].mode == Period {
        var a := aligns[i].(canAlign := true);
        if timers[i].interval % DIVISOR == 0 {
          a := a.(canMultiple := true, times := timers[i].interval / DIVISOR % TIMES_RANGE);
        }
        SetAlignOf(i, a);
      }
    }

    /** LOS_SwtmrStart */
    method Start(id: nat, currTime: nat) returns (ret: Ret)
      requires Valid() && SwOK(abs) && Deadline(currTime, WORD_RANGE, cfg.PerTick()) < INVALID_TIME
      modifies this`abs, timers, aligns, link, link.sortLink, link.nodes, link.items
      ensures Valid() && SwTimer.Shape(old(abs)) && Words(old(abs))
      ensures Out(abs, ret) == SwTimer.Start(old(abs), id, currTime)
    {
      var slot := Find(id);
      StartReady(abs, id);
      if slot.None? {
        return Fail(IdInvalid);
      }
      var i := slot.value;
      hide Valid, SwTimer.StartTimer, SwTimer.StopTimer, NoteAlign, SwOK, Deadline, Slot;
      RecordAlign(i);
      match timers[i].state {
        case Unused => return Fail(NotCreated);
        case Ticking =>
          StopTimer(i);
          StartTimer(i, currTime);
        case Created => StartTimer(i, currTime);
      }
      return Ok;
    }

    /** g_taskScheduled is set: from now on a timer that is stopped loses its alignment. */
    method SchedStart()
      requires Valid()
      modifies `abs, `running
      ensures Valid() && abs == old(abs).(running := true)
    {
      hide RecordsAre, QueueIs;
      running := true;
      abs := abs.(running := true);
    }

    /** LOS_SwtmrStop */
    method Stop(id: nat) returns (ret: Ret)
      requires Valid()
      modifies this`abs, timers, aligns, link, link.sortLink, link.nodes, link.items
      ensures Valid() && SwTimer.Shape(old(abs)) && Out(abs, ret) == SwTimer.Stop(old(abs), id)
    {
      var slot := Find(id);
      if slot.None? {
        return Fail(IdInvalid);
      }
      hide Valid, SwTimer.StopTimer, Slot;
      match timers[slot.value].state {
        case Unused => return Fail(NotCreated);
        case Created => return Fail(NotStarted);
        case Ticking => StopTimer(slot.value);
      }
      return Ok;
    }

    /** LOS_SwtmrTimeGet */
    method TimeGet(id: nat, currTime: nat) returns (ret: Ret)
      requires Valid()
      ensures SwTimer.Shape(abs) && Out(abs, ret) == SwTimer.TimeGet(abs, id, currTime)
    {
      var slot := Find(id);
      if slot.None? {
        return Fail(IdInvalid);
      }
      hide Valid, Slot, Left;
      match timers[slot.value].state {
        case Unused => return Fail(NotCreated);
        case Created => return Fail(NotStarted);
        case Ticking =>
          var ticks := TargetExpireTime(currTime, slot.value);
          return Ticks(ticks);
      }
    }

    /** LOS_SwtmrDelete */
    method Delete(id: nat) returns (ret: Ret)
      requires Valid()
      modifies this`abs, this`freeList, timers, aligns, link, link.sortLink, link.nodes, link.items
      ensures Valid() && SwTimer.Shape(old(abs)) && Out(abs, ret) == SwTimer.Delete(old(abs), id)
    {
      var slot := Find(id);
      if slot.None? {
        return Fail(IdInvalid);
      }
      var i := slot.value;
      hide Valid, SwTimer.StopTimer, Slot;
      match timers[i].state {
        case Unused => return Fail(NotCreated);
        case Ticking =>
          StopTimer(i);
          KeepId(i);
          FreeTimer(i, timers[i].timerId);
        case Created =>
          KeepId(i);
          FreeTimer(i, timers[i].timerId);
      }
      return Ok;
    }

    lemma KeepId(i: nat)
      requires Valid() && i < cfg.limit
      ensures var s := SwTimer.FreeTimer(abs, i); SetTimer(s, i, s.timers[i].(id := timers[i].timerId)) == s
    {
      RecordOf(i);
    }
  }

  lemma InitFree(cfg: Config)
    requires cfg.OK()
    ensures |Init(cfg).free| == cfg.limit && forall i :: 0 <= i < cfg.limit ==> Init(cfg).free[i] == i
  {
  }

  /** OsSwtmrInit */
  method InitTable(cfg: Config) returns (table: SwtmrTable)
    requires cfg.OK()
    ensures fresh(table) && table.Valid() && table.abs == Init(cfg) && table.posted == []
  {
    assert 0 < cfg.limit;
    hide *;
    var ts, ls := AllocRecords(cfg.limit);
    var free := NumberRecords(ts);
    assert free == Init(cfg).free by {
      InitFree(cfg);
    }
    table := new SwtmrTable(cfg, ts, ls, free);
  }

  /** Timer `i` is in use and off the queue, and a restart at `curr` fits the clock. */
  ghost predicate Expirable(s: Timers, i: nat, curr: nat) {
    && SwTimer.Shape(s) && Words(s) && i < s.cfg.limit && !Linked(s.link, i)
    && Deadline(curr, WORD_RANGE, s.cfg.PerTick()) < INVALID_TIME
  }

  /** No deadline set during the scan overflows the clock word. */
  ghost predicate ClockFits(clock: nat -> nat, cfg: Config)
  {
    cfg.OK() && forall n :: Deadline(clock(n), WORD_RANGE, cfg.PerTick()) < INVALID_TIME
  }

  lemma RoundOK(s: Timers, now: nat, clock: nat -> nat, n: nat)
    requires SwOK(s) && Clock(clock, now) && s.link != [] && s.link[0].time <= now && ClockFits(clock, s.cfg)
    ensures var i := s.link[0].id;
            var s1 := s.(link := Remove(s.link, i));
            && i < |s.timers| && Expirable(s1, i, clock(n))
            && (forall s2 :: IsExpire(s1, i, clock(n), s2) ==>
                  && SwOK(s2) && s2.cfg == s.cfg
                  && |DueSlots(s2.link, now)| < |DueSlots(s.link, now)|
                  && SwTimerRuns.Scan(s, now, clock, n).0 == SwTimerRuns.Scan(s2, now, clock, n + 1).0
                  && SwTimerRuns.Scan(s, now, clock, n).1
                     == [Fired(i, s.timers[i].handler, s.timers[i].arg)] + SwTimerRuns.Scan(s2, now, clock, n + 1).1)
  {
    var i := s.link[0].id;
    var s1 := s.(link := Remove(s.link, i));
    HeadLoose(s);
    LooseWords(s1, i);
    ScanOneDue(s, now, clock(n));
    ScanFirst(s, now, clock, n);
    assert ScanOne(s, clock(n)) == Expire(s1, i, clock(n));
  }

  lemma ScanDone(s: Timers, now: nat, clock: nat -> nat, n: nat)
    requires SwOK(s) && Clock(clock, now) && (s.link == [] || s.link[0].time > now)
    ensures SwTimerRuns.Scan(s, now, clock, n) == (s, [])
  {
  }

  lemma StartReady(s: Timers, id: nat)
    requires SwOK(s)
    ensures Words(s)
    ensures Slot(s, id).Some? ==>
              var i := Slot(s, id).value;
              && SwTimer.Shape(NoteAlign(s, i)) && Words(NoteAlign(s, i)) && NoteAlign(s, i).link == s.link
              && NoteAlign(s, i).timers == s.timers
              && (s.timers[i].state == Created ==> !Linked(s.link, i))
              && (s.timers[i].state == Ticking ==>
                    var r := SwTimer.StopTimer(NoteAlign(s, i), i);
                    SwTimer.Shape(r) && Words(r) && !Linked(r.link, i))
  {
    SwWords(s);
    if Slot(s, id).Some? {
      var i := Slot(s, id).value;
      assert TimerOK(s, i);
      if s.timers[i].state == Ticking {
        RestartLoose(s, i);
        LooseWords(SwTimer.StopTimer(NoteAlign(s, i), i), i);
      }
    }
  }

  ghost predicate IsExpire(s: Timers, i: nat, curr: nat, s': Timers) {
    SwTimer.Shape(s) && Words(s) && i < s.cfg.limit && s' == Expire(s, i, curr)
  }

  ghost function Realigned(s: Timers, i: nat, curr: nat): Timers
    requires SwTimer.Shape(s) && Words(s) && i < s.cfg.limit
  {
    if s.aligns[i].canAlign && !s.aligns[i].isAligned then
      var a := SetAlign(s, i, s.aligns[i].(isAligned := true));
      SetTimer(a, i, a.timers[i].(count := AlignedCount(a, i, curr)))
    else s
  }

  lemma CountFits(s: Timers, i: nat, curr: nat)
    requires SwTimer.Shape(s) && Words(s) && i < s.cfg.limit
    requires Deadline(curr, WORD_RANGE, s.cfg.PerTick()) < INVALID_TIME
    ensures Deadline(curr, SwTimer.StartTimer(s, i, curr).timers[i].count, s.cfg.PerTick()) < INVALID_TIME
  {
    StartShape(s, i, curr);
    var n := SwTimer.StartTimer(s, i, curr).timers[i].count;
    AlignedWord(Aligning(s, i, curr), i, curr);
    hide SwTimer.StartTimer, AlignedCount;
    DeadlineMonotone(curr, curr, n, WORD_RANGE, s.cfg.PerTick());
  }

  lemma AlignedWord(s: Timers, i: nat, curr: nat)
    requires SwTimer.Shape(s) && Words(s) && i < s.cfg.limit && s.timers[i].count < WORD_RANGE
    ensures AlignedCount(s, i, curr) < WORD_RANGE
  {
    hide Search, WholeTicks, TimeOf;
  }

  lemma SearchOne(s: Timers, i: nat, k: nat, large: Option<nat>, little: Option<nat>)
    requires SwTimer.Shape(s) && i < s.cfg.limit && PickOK(s, large, little) && k < |s.link|
    requires s.link[k].id < s.cfg.limit
    ensures var f := Look(s, i, s.link[k].id, large, little);
            && (f.Nearest? ==> PickOK(s, f.large, f.little))
            && Search(s, i, s.link[k..], large, little) ==
                 (if f.Nearest? then Search(s, i, s.link[k + 1..], f.large, f.little) else f)
  {
    assert s.link[k..][0] == s.link[k] && s.link[k..][1..] == s.link[k + 1..];
  }

  lemma SearchNone(s: Timers, i: nat, large: Option<nat>, little: Option<nat>)
    requires SwTimer.Shape(s) && i < s.cfg.limit && PickOK(s, large, little)
    ensures Search(s, i, s.link, large, little) == Search(s, i, s.link[0..], large, little)
    ensures Search(s, i, s.link[|s.link|..], large, little) == Nearest(large, little)
  {
    assert s.link[0..] == s.link;
  }

  lemma {:induction false} TimeOfAt(s: seq<Entry>, k: nat)
    requires UniqueIds(s) && k < |s|
    ensures TimeOf(s, s[k].id) == s[k].time
  {
    if k > 0 {
      TimeOfAt(s[1..], k - 1);
    }
  }

  lemma {:induction false} TimeOfNone(s: seq<Entry>, i: nat)
    requires !Linked(s, i)
    ensures TimeOf(s, i) == INVALID_TIME
  {
    if s != [] {
      assert s[0] in s;
      assert forall e :: e in s[1..] ==> e in s;
      TimeOfNone(s[1..], i);
    }
  }
}
