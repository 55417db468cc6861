/** The scan of kernel/src/los_swtmr.c, and runs of timer calls and scans. */
module SwTimerRuns {
  import opened Sequences
  import opened Deadlines
  import opened SwTimer
  import opened SwTimerProofs

  /** What the scan hands to the handler task. */
  datatype Fired = Fired(slot: nat, handler: nat, arg: nat)

  /** The readings of a clock that never goes back. */
  ghost predicate Clock(clock: nat -> nat, from: nat) {
    forall i, j :: 0 <= i <= j ==> from <= clock(i) <= clock(j)
  }

  // ---- Entries that are due ----

  function DueSlots(link: seq<Entry>, now: nat): seq<nat> {
    if link == [] || link[0].time > now then [] else [link[0].id] + DueSlots(link[1..], now)
  }

  lemma {:induction false} DuePlaced(link: seq<Entry>, e: Entry, now: nat, p: nat)
    requires e.time > now && p <= |link| && (forall i :: p <= i < |link| ==> link[i].time >= e.time)
    ensures DueSlots(link[..p] + [e] + link[p..], now) == DueSlots(link, now)
  {
    var r := link[..p] + [e] + link[p..];
    if p == 0 {
      assert r[0] == e;
    } else {
      var t := link[1..];
      assert r[0] == link[0] && r[1..] == t[..p - 1] + [e] + t[p - 1..];
      DuePlaced(t, e, now, p - 1);
    }
  }

  /** Linking a timer for later does not change what is due now. */
  lemma DueInsert(link: seq<Entry>, e: Entry, now: nat)
    requires Sorted(link) && e.time > now
    ensures DueSlots(Insert(link, e), now) == DueSlots(link, now)
  {
    var p := InsertSplits(link, e);
    DuePlaced(link, e, now, p);
  }

  lemma DueHead(link: seq<Entry>, now: nat)
    requires UniqueIds(link) && link != [] && link[0].time <= now
    ensures Remove(link, link[0].id) == link[1..]
    ensures DueSlots(link, now) == [link[0].id] + DueSlots(Remove(link, link[0].id), now)
  {
    RemoveAt(link, 0);
    assert link[..0] + link[1..] == link[1..];
  }

  lemma {:induction false} DueExactly(link: seq<Entry>, now: nat, i: nat)
    requires Sorted(link)
    ensures i in DueSlots(link, now) <==> exists e :: e in link && e.id == i && e.time <= now
  {
    if link != [] {
      if link[0].time > now {
        forall e | e in link && e.id == i ensures e.time > now {
          var k :| 0 <= k < |link| && link[k] == e;
        }
      } else {
        DueExactly(link[1..], now, i);
        assert link == [link[0]] + link[1..];
        assert link[0] in link;
      }
    }
  }

  lemma {:induction false} DueOnce(link: seq<Entry>, now: nat)
    requires Sorted(link) && UniqueIds(link)
    ensures NoDup(DueSlots(link, now))
  {
    if link != [] && link[0].time <= now {
      DueOnce(link[1..], now);
      DueExactly(link[1..], now, link[0].id);
    }
  }

  // ---- The scan ----

  lemma HeadLoose(s: Timers)
    requires SwOK(s) && s.link != []
    ensures Loose(s.(link := Remove(s.link, s.link[0].id)), s.link[0].id)
    ensures s.timers[s.link[0].id].state == Ticking
  {
    var i := s.link[0].id;
    assert s.link[0] in s.link;
    assert TimerOK(s, i);
    Unlinking(s.link, i);
    var s' := s.(link := Remove(s.link, i));
    hide Remove, Sorted, UniqueIds, NoDup;
    forall j | 0 <= j < s.cfg.limit && j != i ensures TimerOK(s', j) {
      assert TimerOK(s, j);
    }
  }

  /** One round of OsSwtmrScan: the head of the queue is due. */
  ghost function ScanOne(s: Timers, curr: nat): (r: Timers)
    requires SwOK(s) && s.link != []
    ensures SwOK(r) && r.cfg == s.cfg
  {
    HeadLoose(s);
    var i := s.link[0].id;
    var s1 := s.(link := Remove(s.link, i));
    LooseWords(s1, i);
    ExpireOK(s1, i, curr);
    Expire(s1, i, curr)
  }

  /** A restarted timer is not aligned again, so its new deadline is a whole interval away. */
  lemma ScanOneLink(s: Timers, curr: nat)
    requires SwOK(s) && s.link != []
    ensures var i := s.link[0].id;
            var rest := Remove(s.link, i);
            i < s.cfg.limit &&
            var t := s.timers[i];
            && t.interval > 0
            && ScanOne(s, curr).link ==
                 (if t.mode == Period then Insert(rest, Entry(i, Deadline(curr, t.interval, s.cfg.PerTick())))
                  else rest)
            && (forall j :: 0 <= j < s.cfg.limit && j != i ==> ScanOne(s, curr).timers[j] == s.timers[j])
            && ScanOne(s, curr).timers[i] ==
                 match t.mode {
                   case Once => t.(state := Unused, id := NextId(s.cfg, t.id))
                   case Period => t.(count := t.interval)
                   case NoSelfDelete => t.(state := Created)
                 }
  {
    var i := s.link[0].id;
    assert s.link[0] in s.link;
    assert TimerOK(s, i);
    HeadLoose(s);
    LooseWords(s.(link := Remove(s.link, i)), i);
    if s.timers[i].mode == Period {
      StartShape(s.(link := Remove(s.link, i)), i, curr);
    }
    hide Insert, Remove, Linked, NextId, Search, AlignedCount, Sorted, UniqueIds;
  }

  /** Each round takes one due entry off and adds none. */
  lemma ScanOneDue(s: Timers, now: nat, curr: nat)
    requires SwOK(s) && s.link != [] && s.link[0].time <= now <= curr
    ensures DueSlots(s.link, now) == [s.link[0].id] + DueSlots(ScanOne(s, curr).link, now)
  {
    var i := s.link[0].id;
    ScanOneLink(s, curr);
    DueHead(s.link, now);
    Unlinking(s.link, i);
    PerTickPositive(s.cfg);
    if s.timers[i].mode == Period {
      DeadlineLater(curr, s.timers[i].interval, s.cfg.PerTick());
      DueInsert(Remove(s.link, i), Entry(i, Deadline(curr, s.timers[i].interval, s.cfg.PerTick())), now);
    }
  }

  /** OsSwtmrScan: `now` is read once, the clock again at every restart. The recursion ends: what is due shrinks. */
  ghost function Scan(s: Timers, now: nat, clock: nat -> nat, n: nat): (r: (Timers, seq<Fired>))
    requires SwOK(s) && Clock(clock, now)
    ensures SwOK(r.0) && r.0.cfg == s.cfg
    decreases |DueSlots(s.link, now)|
  {
    if s.link == [] || s.link[0].time > now then (s, [])
    else
      var i := s.link[0].id;
      assert s.link[0] in s.link;
      ScanOneDue(s, now, clock(n));
      var r := Scan(ScanOne(s, clock(n)), now, clock, n + 1);
      (r.0, [Fired(i, s.timers[i].handler, s.timers[i].arg)] + r.1)
  }

  function Slots(log: seq<Fired>): (r: seq<nat>)
    ensures |r| == |log| && forall i :: 0 <= i < |log| ==> r[i] == log[i].slot
  {
    if log == [] then [] else [log[0].slot] + Slots(log[1..])
  }

  /** The scan handles each due timer exactly once, in order of their deadlines, and leaves nothing due. */
  lemma {:induction false} ScanHandlesDue(s: Timers, now: nat, clock: nat -> nat, n: nat)
    requires SwOK(s) && Clock(clock, now)
    ensures var r := Scan(s, now, clock, n);
            && Slots(r.1) == DueSlots(s.link, now)
            && NoDup(Slots(r.1))
            && (forall e :: e in r.0.link ==> e.time > now)
    decreases |DueSlots(s.link, now)|
  {
    DueOnce(s.link, now);
    if s.link == [] || s.link[0].time > now {
      forall e | e in s.link ensures e.time > now {
        var k :| 0 <= k < |s.link| && s.link[k] == e;
      }
    } else {
      ScanOneDue(s, now, clock(n));
      ScanHandlesDue(ScanOne(s, clock(n)), now, clock, n + 1);
      hide SwOK, ScanOne, NoDup;
    }
  }

  /** What the scan has made of timer `i`. */
  ghost predicate Expired(s: Timers, s': Timers, i: nat, now: nat)
    requires i < |s.timers| && i < |s'.timers| && s.cfg.limit > 0
  {
    var t, t' := s.timers[i], s'.timers[i];
    match t.mode
    case Once => t' == t.(state := Unused, id := NextId(s.cfg, t.id)) && !Linked(s'.link, i)
    case Period => t' == t.(count := t.interval) && (exists e :: e in s'.link && e.id == i && e.time > now)
    case NoSelfDelete => t' == t.(state := Created) && !Linked(s'.link, i)
  }

  /** A timer that is not due keeps its record and its deadline. */
  ghost predicate Untouched(s: Timers, s': Timers, i: nat)
    requires i < |s.timers| && i < |s'.timers|
  {
    && s'.timers[i] == s.timers[i]
    && forall e: Entry :: e.id == i ==> (e in s'.link <==> e in s.link)
  }

  lemma ScanSize(s: Timers)
    requires SwOK(s)
    ensures 0 < s.cfg.limit == |s.timers|
  {
  }

  lemma ScanOneFates(s: Timers, now: nat, curr: nat, i: nat)
    requires SwOK(s) && s.link != [] && s.link[0].time <= now <= curr && i < s.cfg.limit
    ensures 0 < s.cfg.limit == |s.timers| == |ScanOne(s, curr).timers|
    ensures var s' := ScanOne(s, curr);
            if i == s.link[0].id then Expired(s, s', i, now) else Untouched(s, s', i)
  {
    ScanSize(s);
    ScanSize(ScanOne(s, curr));
    ScanOneLink(s, curr);
    PerTickPositive(s.cfg);
    hide SwOK, ScanOne, NextId, Insert, Remove, Config.PerTick;
    var h := s.link[0].id;
    var rest := Remove(s.link, h);
    if s.timers[h].mode == Period {
      var e := Entry(h, Deadline(curr, s.timers[h].interval, s.cfg.PerTick()));
      DeadlineLater(curr, s.timers[h].interval, s.cfg.PerTick());
      assert e in Insert(rest, e);
    }
  }

  lemma UntouchedTrans(s: Timers, s1: Timers, s2: Timers, i: nat, now: nat)
    requires s.cfg.limit > 0 && i < |s.timers| && i < |s1.timers| && i < |s2.timers| && Untouched(s1, s2, i)
    ensures Untouched(s, s1, i) ==> Untouched(s, s2, i)
    ensures Expired(s, s1, i, now) ==> Expired(s, s2, i, now)
  {
    if Linked(s2.link, i) {
      var e :| e in s2.link && e.id == i;
      assert e in s1.link;
    }
  }

  lemma ExpiredTrans(s: Timers, s1: Timers, s2: Timers, i: nat, now: nat)
    requires s.cfg.limit > 0 && i < |s.timers| && i < |s1.timers| && i < |s2.timers| && s1.cfg == s.cfg
    requires Untouched(s, s1, i) && Expired(s1, s2, i, now)
    ensures Expired(s, s2, i, now)
  {
  }

  lemma ScanFirst(s: Timers, now: nat, clock: nat -> nat, n: nat)
    requires SwOK(s) && Clock(clock, now) && s.link != [] && s.link[0].time <= now
    ensures var s1 := ScanOne(s, clock(n));
            && Scan(s, now, clock, n).0 == Scan(s1, now, clock, n + 1).0
            && DueSlots(s.link, now) == [s.link[0].id] + DueSlots(s1.link, now)
            && s.link[0].id !in DueSlots(s1.link, now)
  {
    DueOnce(s.link, now);
    hide SwOK, ScanOne, NextId, DueSlots, NoDup;
    ScanOneDue(s, now, clock(n));
    HeadOnce(s.link[0].id, DueSlots(ScanOne(s, clock(n)).link, now));
    ScanUnfolds(s, now, clock, n);
  }

  lemma HeadOnce(h: nat, rest: seq<nat>)
    requires NoDup([h] + rest)
    ensures h !in rest
  {
    var s := [h] + rest;
    forall i | 0 <= i < |rest| ensures rest[i] != h {
      assert s[0] != s[i + 1];
    }
  }

  lemma ScanUnfolds(s: Timers, now: nat, clock: nat -> nat, n: nat)
    requires SwOK(s) && Clock(clock, now) && s.link != [] && s.link[0].time <= now
    ensures Scan(s, now, clock, n).0 == Scan(ScanOne(s, clock(n)), now, clock, n + 1).0
  {
  }

  /** Due timers expire according to their mode, the others are left alone. */
  lemma {:induction false} ScanFates(s: Timers, now: nat, clock: nat -> nat, n: nat, i: nat)
    requires SwOK(s) && Clock(clock, now) && i < s.cfg.limit
    ensures 0 < s.cfg.limit == |s.timers| == |Scan(s, now, clock, n).0.timers|
    ensures var s' := Scan(s, now, clock, n).0;
            if i in DueSlots(s.link, now) then Expired(s, s', i, now) else Untouched(s, s', i)
    decreases |DueSlots(s.link, now)|
  {
    var s2 := Scan(s, now, clock, n).0;
    ScanSize(s);
    ScanSize(s2);
    if s.link != [] && s.link[0].time <= now {
      var s1 := ScanOne(s, clock(n));
      ScanFirst(s, now, clock, n);
      hide *;
      ScanSize(s1);
      ScanOneFates(s, now, clock(n), i);
      ScanFates(s1, now, clock, n + 1, i);
      if i == s.link[0].id {
        UntouchedTrans(s, s1, s2, i, now);
      } else if i in DueSlots(s1.link, now) {
        ExpiredTrans(s, s1, s2, i, now);
      } else {
        UntouchedTrans(s, s1, s2, i, now);
      }
    }
  }

  // ---- The alignment records ----

  lemma NearLater(s: Timers, s': Timers, i: nat)
    requires Shape(s) && Shape(s') && Near(s) && s'.cfg == s.cfg && s.now <= s'.now
    requires forall e :: e in s'.link && e.id != i ==>
             e in s.link && s'.timers[e.id].interval == s.timers[e.id].interval
    requires forall e :: e in s'.link && e.id == i ==>
             e.time <= Deadline(s'.now, s'.timers[i].interval, s'.cfg.PerTick())
    ensures Near(s')
  {
    forall e | e in s'.link && e.id != i
      ensures e.time <= Deadline(s'.now, s'.timers[e.id].interval, s'.cfg.PerTick()) {
      DeadlineMonotone(s.now, s'.now, s.timers[e.id].interval, s.timers[e.id].interval, s.cfg.PerTick());
    }
  }

  /** Alignment in a state with right records. */
  lemma AlignsInStep(s: Timers, i: nat, curr: nat)
    requires Loose(s, i) && Honest(s) && s.now <= curr
    ensures Words(s)
    ensures var a := Aligning(s, i, curr);
            Shape(a) && Words(a) && InStep(a, i, curr, AlignedCount(a, i, curr))
  {
    LooseWords(s, i);
    StartShape(s, i, curr);
    var a := Aligning(s, i, curr);
    NearLater(s, a, i);
    forall j | 0 <= j < s.cfg.limit ensures a.aligns[j].canMultiple || a.aligns[j].times > 0 ==> Recorded(a, j) {
      assert RecordOK(s, j);
    }
    AlignmentOK(a, i, curr);
  }

  lemma StartTimerHonest(s: Timers, i: nat, curr: nat)
    requires Loose(s, i) && Honest(s) && s.now <= curr && s.timers[i].state != Unused
    ensures Words(s) && Shape(StartTimer(s, i, curr)) && Honest(StartTimer(s, i, curr))
  {
    AlignsInStep(s, i, curr);
    StartTimerOK(s, i, curr);
    StartShape(s, i, curr);
    var s' := StartTimer(s, i, curr);
    hide StartTimer, AlignedCount, Insert, Search, Loose, SwOK;
    forall j | 0 <= j < s.cfg.limit ensures RecordOK(s', j) {
      assert RecordOK(s, j);
    }
    var n := s'.timers[i].count;
    assert n <= s.timers[i].interval;
    DeadlineMonotone(curr, curr, n, s.timers[i].interval, s.cfg.PerTick());
    NearLater(s, s', i);
  }

  lemma StopTimerHonest(s: Timers, i: nat)
    requires Shape(s) && Honest(s) && i < s.cfg.limit && s.timers[i].state != Unused
    ensures Shape(StopTimer(s, i)) && Honest(StopTimer(s, i))
  {
    var s' := StopTimer(s, i);
    forall j | 0 <= j < s.cfg.limit ensures RecordOK(s', j) {
      assert RecordOK(s, j);
    }
    NearLater(s, s', i);
  }

  lemma FreeTimerHonest(s: Timers, i: nat, id: nat)
    requires Shape(s) && Honest(s) && i < s.cfg.limit && !Linked(s.link, i)
    ensures var s1 := FreeTimer(s, i); var s2 := SetTimer(s1, i, s1.timers[i].(id := id));
            && Shape(s1) && Honest(s1) && Shape(s2) && Honest(s2)
  {
    var s1 := FreeTimer(s, i);
    forall j | 0 <= j < s.cfg.limit ensures RecordOK(s1, j) {
      assert RecordOK(s, j);
    }
    NearLater(s, s1, i);
    var s2 := SetTimer(s1, i, s1.timers[i].(id := id));
    forall j | 0 <= j < s.cfg.limit ensures RecordOK(s2, j) {
      assert RecordOK(s1, j);
    }
    NearLater(s1, s2, i);
  }

  lemma NoteAlignHonest(s: Timers, i: nat)
    requires Shape(s) && Honest(s) && i < s.cfg.limit && s.timers[i].state != Unused
    ensures Shape(NoteAlign(s, i)) && Honest(NoteAlign(s, i))
  {
    var s' := NoteAlign(s, i);
    forall j | 0 <= j < s.cfg.limit ensures RecordOK(s', j) {
      assert RecordOK(s, j);
    }
    NearLater(s, s', i);
  }

  lemma ExpireHonest(s: Timers, i: nat, curr: nat)
    requires Loose(s, i) && Honest(s) && s.now <= curr && s.timers[i].state != Unused
    ensures Words(s) && Shape(Expire(s, i, curr)) && Honest(Expire(s, i, curr))
  {
    LooseWords(s, i);
    match s.timers[i].mode {
      case Once => FreeTimerHonest(s, i, NextId(s.cfg, s.timers[i].id));
      case Period => StartTimerHonest(s, i, curr);
      case NoSelfDelete =>
        var s' := Expire(s, i, curr);
        forall j | 0 <= j < s.cfg.limit ensures RecordOK(s', j) {
          assert RecordOK(s, j);
        }
        NearLater(s, s', i);
    }
  }

  lemma HeadHonest(s: Timers)
    requires SwOK(s) && Honest(s) && s.link != []
    ensures var s1 := s.(link := Remove(s.link, s.link[0].id)); Shape(s1) && Honest(s1)
  {
    var s1 := s.(link := Remove(s.link, s.link[0].id));
    forall j | 0 <= j < s.cfg.limit ensures RecordOK(s1, j) {
      assert RecordOK(s, j);
    }
    NearLater(s, s1, s.link[0].id);
  }

  lemma ScanOneHonest(s: Timers, curr: nat)
    requires SwOK(s) && Honest(s) && s.link != [] && s.now <= curr
    ensures Honest(ScanOne(s, curr)) && ScanOne(s, curr).now <= curr
  {
    HeadHonest(s);
    HeadLoose(s);
    var s1 := s.(link := Remove(s.link, s.link[0].id));
    LooseWords(s1, s.link[0].id);
    ExpireHonest(s1, s.link[0].id, curr);
    hide Search, AlignCount, Insert, Remove, Loose, Honest, SwOK;
  }

  lemma ScanStops(s: Timers, now: nat, clock: nat -> nat, n: nat)
    requires SwOK(s) && Clock(clock, now) && (s.link == [] || s.link[0].time > now)
    ensures Scan(s, now, clock, n).0 == s
  {
  }

  lemma ClockGoesOn(clock: nat -> nat, now: nat, n: nat)
    requires Clock(clock, now)
    ensures clock(n) <= clock(n + 1)
  {
  }

  lemma {:induction false} ScanHonest(s: Timers, now: nat, clock: nat -> nat, n: nat)
    requires SwOK(s) && Honest(s) && Clock(clock, now) && s.now <= clock(n)
    ensures Honest(Scan(s, now, clock, n).0)
    decreases |DueSlots(s.link, now)|
  {
    hide *;
    ClockGoesOn(clock, now, n);
    if s.link == [] || s.link[0].time > now {
      ScanStops(s, now, clock, n);
    } else {
      ScanFirst(s, now, clock, n);
      ScanOneHonest(s, clock(n));
      ScanHonest(ScanOne(s, clock(n)), now, clock, n + 1);
    }
  }

  // ---- Runs ----

  /** Calls by tasks and handlers, the scan at a tick, the start of the scheduler; `at` is the clock a call reads. */
  datatype Op =
    | DoCreate(interval: nat, mode: Mode, handler: nat, arg: nat, insensitive: bool)
    | DoStart(id: nat, at: nat)
    | DoStop(id: nat)
    | DoDelete(id: nat)
    | DoScan(at: nat, clock: nat -> nat)
    | DoSchedStart

  /** Intervals are 32-bit words, and the clock does not go back. */
  ghost predicate Legal(s: Timers, op: Op) {
    match op
    case DoCreate(interval, _, _, _, _) => interval < WORD_RANGE
    case DoStart(_, at) => s.now <= at
    case DoScan(at, clock) => s.now <= at && Clock(clock, at)
    case _ => true
  }

  /** The caller starts only timers it has created, with intervals whose multiple of ten fits 24 bits. */
  ghost predicate Fair(s: Timers, op: Op)
    requires Shape(s)
  {
    match op
    case DoCreate(interval, _, _, _, _) => interval < DIVISOR * TIMES_RANGE
    case DoStart(id, _) => Slot(s, id).Some? ==> s.timers[Slot(s, id).value].state != Unused
    case _ => true
  }

  lemma RunningOK(s: Timers)
    requires SwOK(s)
    ensures SwOK(s.(running := true))
    ensures Honest(s) ==> Honest(s.(running := true))
  {
    forall i | 0 <= i < s.cfg.limit
      ensures TimerOK(s.(running := true), i) && (Honest(s) ==> RecordOK(s.(running := true), i)) {
      assert TimerOK(s, i);
      assert Honest(s) ==> RecordOK(s, i);
    }
  }

  ghost function Next(s: Timers, op: Op): (r: Timers)
    requires SwOK(s) && Legal(s, op)
    ensures SwOK(r)
  {
    match op
    case DoCreate(interval, mode, handler, arg, insensitive) =>
      CreateOK(s, interval, mode, handler, arg, insensitive);
      Create(s, interval, mode, handler, arg, insensitive).s
    case DoStart(id, at) => StartOK(s, id, at); Start(s, id, at).s
    case DoStop(id) => StopOK(s, id); Stop(s, id).s
    case DoDelete(id) => DeleteOK(s, id); Delete(s, id).s
    case DoScan(at, clock) => Scan(s, at, clock, 0).0
    case DoSchedStart => RunningOK(s); s.(running := true)
  }

  lemma CreateHonest(s: Timers, interval: nat, mode: Mode, handler: nat, arg: nat, insensitive: bool)
    requires SwOK(s) && Honest(s) && interval < DIVISOR * TIMES_RANGE
    ensures var o := Create(s, interval, mode, handler, arg, insensitive); Shape(o.s) && Honest(o.s)
  {
    var o := Create(s, interval, mode, handler, arg, insensitive);
    CreateOK(s, interval, mode, handler, arg, insensitive);
    if o.ret.Id? {
      var i := s.free[0];
      assert i in s.free && TimerOK(s, i);
      forall j | 0 <= j < s.cfg.limit ensures RecordOK(o.s, j) {
        assert RecordOK(s, j);
      }
      NearLater(s, o.s, i);
    }
  }

  lemma StartHonest(s: Timers, id: nat, curr: nat)
    requires SwOK(s) && Honest(s) && s.now <= curr
    requires Slot(s, id).Some? ==> s.timers[Slot(s, id).value].state != Unused
    ensures Words(s)
    ensures var o := Start(s, id, curr); Shape(o.s) && Honest(o.s)
  {
    SwWords(s);
    var slot := Slot(s, id);
    if slot.Some? {
      var i := slot.value;
      NoteAlignHonest(s, i);
      var s1 := NoteAlign(s, i);
      assert s1.timers == s.timers;
      if s.timers[i].state == Ticking {
        RestartLoose(s, i);
        StopTimerHonest(s1, i);
        StartTimerHonest(StopTimer(s1, i), i, curr);
      } else {
        NoteAlignOK(s, i);
        CreatedLoose(s1, i);
        StartTimerHonest(s1, i, curr);
      }
    }
  }

  lemma StopHonest(s: Timers, id: nat)
    requires SwOK(s) && Honest(s)
    ensures Shape(Stop(s, id).s) && Honest(Stop(s, id).s)
  {
    var slot := Slot(s, id);
    if slot.Some? && s.timers[slot.value].state == Ticking {
      StopTimerHonest(s, slot.value);
    }
  }

  lemma DeleteHonest(s: Timers, id: nat)
    requires SwOK(s) && Honest(s)
    ensures Shape(Delete(s, id).s) && Honest(Delete(s, id).s)
  {
    var slot := Slot(s, id);
    if slot.Some? {
      var i := slot.value;
      assert TimerOK(s, i);
      if s.timers[i].state == Ticking {
        StopTimerHonest(s, i);
        StopTimerLoose(s, i);
        var s1 := StopTimer(s, i);
        FreeTimerHonest(s1, i, s1.timers[i].id);
      } else if s.timers[i].state == Created {
        FreeTimerHonest(s, i, s.timers[i].id);
      }
    }
  }

  lemma NextHonest(s: Timers, op: Op)
    requires SwOK(s) && Legal(s, op) && Honest(s) && Fair(s, op)
    ensures Honest(Next(s, op))
  {
    match op {
      case DoCreate(interval, mode, handler, arg, insensitive) => CreateHonest(s, interval, mode, handler, arg,
                                                                               insensitive);
      case DoStart(id, at) => StartHonest(s, id, at);
      case DoStop(id) => StopHonest(s, id);
      case DoDelete(id) => DeleteHonest(s, id);
      case DoScan(at, clock) =>
        assert at <= clock(0);
        ScanHonest(s, at, clock, 0);
      case DoSchedStart => RunningOK(s);
    }
  }

  ghost predicate LegalRun(s: Timers, ops: seq<Op>)
    requires SwOK(s)
    decreases |ops|
  {
    ops == [] || (Legal(s, ops[0]) && LegalRun(Next(s, ops[0]), ops[1..]))
  }

  ghost predicate FairRun(s: Timers, ops: seq<Op>)
    requires SwOK(s) && LegalRun(s, ops)
    decreases |ops|
  {
    ops == [] || (Fair(s, ops[0]) && FairRun(Next(s, ops[0]), ops[1..]))
  }

  ghost function Run(s: Timers, ops: seq<Op>): (r: Timers)
    requires SwOK(s) && LegalRun(s, ops)
    ensures SwOK(r)
    decreases |ops|
  {
    if ops == [] then s else Run(Next(s, ops[0]), ops[1..])
  }

  /** Over all runs of created-then-started timers, the alignment records stay right. */
  lemma {:induction false} HonestOverRuns(s: Timers, ops: seq<Op>)
    requires SwOK(s) && LegalRun(s, ops) && Honest(s) && FairRun(s, ops)
    ensures Honest(Run(s, ops))
    decreases |ops|
  {
    if ops != [] {
      NextHonest(s, ops[0]);
      HonestOverRuns(Next(s, ops[0]), ops[1..]);
    }
  }

  /** OsSwtmrInit: all timers unused and on the free list in order. */
  function Init(cfg: Config): Timers
    requires cfg.OK()
  {
    Timers(cfg, seq(cfg.limit, i requires 0 <= i => Timer(Unused, Once, false, i, 0, 0, 0, 0)),
           seq(cfg.limit, _ => NO_ALIGN),
           seq(cfg.limit, i requires 0 <= i => i), [], 0, false)
  }

  lemma InitOK(cfg: Config)
    requires cfg.OK()
    ensures SwOK(Init(cfg)) && Honest(Init(cfg))
  {
    var s := Init(cfg);
    MaxIdHoldsAll(cfg.limit, 0xFFFF_FFFF / cfg.limit);
    hide Config.MaxId;
    forall i | 0 <= i < cfg.limit ensures TimerOK(s, i) {
      assert s.free[i] == i;
      SmallMod(i, cfg.limit);
    }
  }

  /** Over all runs: on the queue iff ticking, on the free list iff unused, identifiers congruent to their slots. */
  lemma TimersOverRuns(s: Timers, ops: seq<Op>, i: nat)
    requires SwOK(s) && LegalRun(s, ops) && i < Run(s, ops).cfg.limit
    ensures var r := Run(s, ops);
            && Shape(r)
            && (Linked(r.link, i) <==> r.timers[i].state == Ticking)
            && (i in r.free <==> r.timers[i].state == Unused)
            && r.timers[i].id % r.cfg.limit == i && r.timers[i].id < r.cfg.MaxId()
  {
    var r := Run(s, ops);
    assert TimerOK(r, i);
  }

  /**
   * Why a timer must be created before it is started: LOS_SwtmrStart on an unused slot fails, but leaves alignment
   * data behind, and the next timer in the slot has right data exactly when its interval happens to be the same.
   */
  lemma StartBeforeCreate(s: Timers, id: nat, at: nat, interval: nat, mode: Mode, handler: nat, arg: nat,
                          insensitive: bool)
    requires SwOK(s) && Slot(s, id).Some? && s.free != [] && s.free[0] == Slot(s, id).value
    requires var t := s.timers[Slot(s, id).value];
             t.insensitive && t.mode == Period && t.interval % DIVISOR == 0 && t.interval < DIVISOR * TIMES_RANGE
    requires interval > 0 && handler > 0
    ensures Words(s)
    ensures var i, o := Slot(s, id).value, Start(s, id, at);
            && o.ret == Fail(NotCreated) && Shape(o.s)
            && var o2 := Create(o.s, interval, mode, handler, arg, insensitive);
               && o2.ret == Id(id) && o2.s.aligns[i].canAlign && o2.s.aligns[i].canMultiple
               && (Recorded(o2.s, i) <==> interval == s.timers[i].interval)
  {
    SwWords(s);
    var i := Slot(s, id).value;
    assert i in s.free && TimerOK(s, i);
    hide Search, AlignCount;
  }

  lemma RunCons(s: Timers, op: Op, ops: seq<Op>)
    requires SwOK(s) && Legal(s, op) && LegalRun(Next(s, op), ops)
    ensures LegalRun(s, [op] + ops) && Run(s, [op] + ops) == Run(Next(s, op), ops)
  {
    hide Next, Legal, SwOK;
    assert ([op] + ops)[0] == op;
    assert ([op] + ops)[1..] == ops;
  }

  /** From start-up: a timer created, deleted, started with its old identifier, and its slot used again. */
  const STALE_RUN := [DoCreate(10, Period, 1, 0, true), DoDelete(0), DoStart(0, 0), DoCreate(20, Period, 1, 0, true)]

  lemma FirstCreated(cfg: Config)
    requires cfg.OK()
    ensures var o := Create(Init(cfg), 10, Period, 1, 0, true);
            && o.s.cfg == cfg && o.s.now == 0 && |o.s.timers| == |o.s.aligns| == cfg.limit > 0
            && o.s.timers[0] == Timer(Created, Period, true, 0, 0, 10, 1, 0)
  {
  }

  lemma ThenDeleted(s: Timers)
    requires SwOK(s) && s.timers[0] == Timer(Created, Period, true, 0, 0, 10, 1, 0)
    ensures var r := SwTimer.Delete(s, 0).s;
            && r.cfg == s.cfg && r.now == s.now && |r.timers| == |s.timers|
            && r.free != [] && r.free[0] == 0 && r.timers[0] == s.timers[0].(state := Unused)
            && Slot(s, 0) == Some(0)
            && (SwOK(r) ==> Slot(r, 0) == Some(0))
  {
    MaxIdHoldsAll(s.cfg.limit, 0xFFFF_FFFF / s.cfg.limit);
  }

  lemma Stale(s: Timers)
    requires Shape(s) && s.aligns[0].canMultiple && !Recorded(s, 0)
    ensures !Honest(s)
  {
    assert !RecordOK(s, 0);
  }

  /** That legal run ends with alignment data that is wrong for the timer in the slot. */
  lemma StaleRecordRun(cfg: Config)
    requires cfg.OK()
    ensures SwOK(Init(cfg)) && LegalRun(Init(cfg), STALE_RUN) && !Honest(Run(Init(cfg), STALE_RUN))
  {
    InitOK(cfg);
    var s0 := Init(cfg);
    FirstCreated(cfg);
    assert Legal(s0, STALE_RUN[0]);
    var s1 := Next(s0, STALE_RUN[0]);
    ThenDeleted(s1);
    assert Legal(s1, STALE_RUN[1]);
    var s2 := Next(s1, STALE_RUN[1]);
    StartBeforeCreate(s2, 0, 0, 20, Period, 1, 0, true);
    assert Legal(s2, STALE_RUN[2]);
    var s3 := Next(s2, STALE_RUN[2]);
    assert Legal(s3, STALE_RUN[3]);
    var s4 := Next(s3, STALE_RUN[3]);
    Stale(s4);
    hide *;
    RunNil(s4);
    RunCons(s3, STALE_RUN[3], []);
    RunCons(s2, STALE_RUN[2], [STALE_RUN[3]]);
    RunCons(s1, STALE_RUN[1], [STALE_RUN[2], STALE_RUN[3]]);
    RunCons(s0, STALE_RUN[0], [STALE_RUN[1], STALE_RUN[2], STALE_RUN[3]]);
    assert STALE_RUN == [STALE_RUN[0]] + [STALE_RUN[1], STALE_RUN[2], STALE_RUN[3]];
  }

  lemma RunNil(s: Timers)
    requires SwOK(s)
    ensures LegalRun(s, []) && Run(s, []) == s
  {
    hide SwOK;
  }
}
