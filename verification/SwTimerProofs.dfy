/** Software timers over whole runs: who is linked, what the scan does, and when an aligned timer fires first. */
module SwTimerProofs {
  import opened Sequences
  import opened Deadlines
  import opened SwTimer

  // ---- The invariant ----

  ghost predicate TimerOK(s: Timers, i: nat)
    requires Shape(s) && i < s.cfg.limit
  {
    var t, a := s.timers[i], s.aligns[i];
    && t.interval < WORD_RANGE
    && (i in s.free <==> t.state == Unused)
    && (Linked(s.link, i) <==> t.state == Ticking)
    && t.id % s.cfg.limit == i && t.id < s.cfg.MaxId()
    && (t.state != Unused ==> t.interval > 0)
    && (t.state == Ticking && a.canAlign ==> a.isAligned)
  }

  ghost predicate SwOK(s: Timers) {
    && Shape(s)
    && NoDup(s.free) && Sorted(s.link) && UniqueIds(s.link)
    && (forall i :: 0 <= i < s.cfg.limit ==> TimerOK(s, i))
  }

  /** No deadline is further away than its timer's interval. */
  ghost predicate Near(s: Timers)
    requires Shape(s)
  {
    forall e :: e in s.link ==> e.time <= Deadline(s.now, s.timers[e.id].interval, s.cfg.PerTick())
  }

  /** Both intervals are what the alignment records say. */
  predicate Recorded(s: Timers, i: nat)
    requires i < |s.aligns| == |s.timers|
  {
    s.timers[i].interval == DIVISOR * s.aligns[i].times
  }

  ghost predicate RecordOK(s: Timers, i: nat)
    requires i < |s.aligns| == |s.timers|
  {
    && s.timers[i].interval < DIVISOR * TIMES_RANGE
    && (s.timers[i].state == Unused ==> s.aligns[i] == NO_ALIGN)
    && (s.aligns[i].canMultiple || s.aligns[i].times > 0 ==> Recorded(s, i))
  }

  /** The alignment records are right: no timer was started before it was created, nor has an interval over 24 bits. */
  ghost predicate Honest(s: Timers)
    requires Shape(s)
  {
    Near(s) && forall i :: 0 <= i < s.cfg.limit ==> RecordOK(s, i)
  }

  lemma SwWords(s: Timers)
    requires SwOK(s)
    ensures Words(s)
  {
    forall j | 0 <= j < |s.timers| ensures s.timers[j].interval < WORD_RANGE {
      assert TimerOK(s, j);
    }
  }

  // ---- Arithmetic of ticks and cycles ----

  lemma DeadlineMonotone(a: nat, b: nat, ticks: nat, more: nat, perTick: nat)
    requires a <= b && ticks <= more
    ensures Deadline(a, ticks, perTick) <= Deadline(b, more, perTick)
  {
    assert ticks * perTick <= more * perTick;
  }

  lemma DeadlineLater(a: nat, ticks: nat, perTick: nat)
    requires ticks > 0 && perTick > 0
    ensures Deadline(a, ticks, perTick) > a
  {
    assert ticks * perTick >= perTick by {
      assert (ticks - 1) * perTick >= 0;
    }
  }

  lemma PerTickPositive(cfg: Config)
    requires cfg.OK()
    ensures 0 < cfg.PerTick() && cfg.PerTick() * cfg.rate <= cfg.clock
  {
    assert cfg.clock / cfg.rate >= 1;
  }

  lemma DivideBound(a: nat, n: nat, d: nat)
    requires d > 0 && a <= n * d
    ensures a / d <= n
  {
    Cancel(a / d, n, d);
  }

  lemma Cancel(q: nat, n: nat, d: nat)
    requires d > 0 && q * d <= n * d
    ensures q <= n
  {
    assert q > n ==> (q - n) * d > 0;
  }

  /** A timer that is due within `ticks` ticks of `curr` has at most `ticks` whole ticks left. */
  lemma LeftBound(cfg: Config, curr: nat, time: nat, ticks: nat)
    requires cfg.OK() && time <= Deadline(curr, ticks, cfg.PerTick()) && ticks < WORD_RANGE
    ensures TicksUntil(cfg, curr, time) <= ticks
    ensures curr < time ==> TicksUntil(cfg, curr, time) == WholeTicks(cfg, time - curr)
  {
    hide WholeTicks;
    if curr < time {
      TicksBound(cfg, time - curr, ticks);
    }
  }

  lemma TicksBound(cfg: Config, cycles: nat, ticks: nat)
    requires cfg.OK() && cycles <= ticks * cfg.PerTick()
    ensures WholeTicks(cfg, cycles) <= ticks
  {
    PerTickPositive(cfg);
    hide Config.PerTick;
    CyclesBound(cycles, ticks, cfg.PerTick(), cfg.rate, cfg.clock);
    DivideBound(cycles * cfg.rate, ticks, cfg.clock);
  }

  lemma CyclesBound(d: nat, ticks: nat, perTick: nat, rate: nat, clock: nat)
    requires d <= ticks * perTick && perTick * rate <= clock
    ensures d * rate <= ticks * clock
  {
    MulMono(d, ticks * perTick, rate);
    assert ticks * perTick * rate == ticks * (perTick * rate);
    MulMono(perTick * rate, clock, ticks);
  }

  lemma MulMono(a: nat, b: nat, c: nat)
    requires a <= b
    ensures a * c <= b * c && c * a <= c * b
  {
  }

  lemma {:induction false} TimeOfLinked(link: seq<Entry>, i: nat)
    requires Linked(link, i)
    ensures Entry(i, TimeOf(link, i)) in link
  {
    if link[0].id != i {
      var e :| e in link && e.id == i;
      assert e in link[1..];
      TimeOfLinked(link[1..], i);
    }
  }

  /** LOS_SwtmrTimeGet never reports more than the timer's interval, as long as the alignment records are right. */
  lemma TimeGetBound(s: Timers, id: nat, curr: nat)
    requires SwOK(s) && Near(s) && s.now <= curr
    ensures var o := TimeGet(s, id, curr);
            o.ret.Ticks? ==> Slot(s, id).Some? && o.ret.ticks <= s.timers[Slot(s, id).value].interval
  {
    var o := TimeGet(s, id, curr);
    if o.ret.Ticks? {
      assert TimerOK(s, Slot(s, id).value);
      LeftAtMostInterval(s, Slot(s, id).value, curr);
    }
  }

  lemma LeftAtMostInterval(s: Timers, i: nat, curr: nat)
    requires SwOK(s) && Near(s) && s.now <= curr && i < s.cfg.limit && Linked(s.link, i)
    ensures Left(s, curr, i) <= s.timers[i].interval
  {
    assert TimerOK(s, i);
    TimeOfLinked(s.link, i);
    DeadlineMonotone(s.now, curr, s.timers[i].interval, s.timers[i].interval, s.cfg.PerTick());
    LeftBound(s.cfg, curr, TimeOf(s.link, i), s.timers[i].interval);
  }

  // ---- The alignment search ----

  /** Timer `j` is what the search for timer `i` compares: aligned, of another interval, with multiples recorded. */
  predicate Comparable(s: Timers, i: nat, j: nat)
    requires i < |s.aligns| && j < |s.aligns| == |s.timers|
  {
    Aligned(s, j) && s.aligns[j].times > 0 && s.aligns[i].canMultiple && s.aligns[i].times > 0
  }

  predicate Multiple(s: Timers, i: nat, j: nat)
    requires i < |s.aligns| && j < |s.aligns| == |s.timers|
  {
    Comparable(s, i, j) && s.aligns[j].times >= s.aligns[i].times && s.aligns[j].times % s.aligns[i].times == 0
  }

  predicate Divisor(s: Timers, i: nat, j: nat)
    requires i < |s.aligns| && j < |s.aligns| == |s.timers|
  {
    Comparable(s, i, j) && s.aligns[j].times < s.aligns[i].times && s.aligns[i].times % s.aligns[j].times == 0
  }

  /** `large` is the nearest multiple and `little` the nearest divisor among `seen`. */
  ghost predicate NearestAmong(s: Timers, i: nat, seen: seq<Entry>, large: Option<nat>, little: Option<nat>)
    requires i < |s.aligns| == |s.timers| && forall e :: e in seen ==> e.id < |s.timers|
  {
    && (forall e :: e in seen ==> !(Aligned(s, e.id) && s.timers[e.id].interval == s.timers[i].interval))
    && (large.Some? ==> large.value < |s.timers| && Linked(seen, large.value) && Multiple(s, i, large.value))
    && (little.Some? ==> little.value < |s.timers| && Linked(seen, little.value) && Divisor(s, i, little.value))
    && (forall e :: e in seen && Multiple(s, i, e.id) ==>
        large.Some? && s.aligns[large.value].times <= s.aligns[e.id].times)
    && (forall e :: e in seen && Divisor(s, i, e.id) ==>
        little.Some? && s.aligns[little.value].times >= s.aligns[e.id].times)
  }

  lemma RatioOrder(a: nat, b: nat, m: nat)
    requires m > 0 && a % m == 0 && b % m == 0
    ensures a / m > b / m <==> a > b
  {
    assert a == a / m * m && b == b / m * m;
    if a / m > b / m {
      assert (a / m - b / m) * m > 0;
    } else {
      assert (b / m - a / m) * m >= 0;
    }
  }

  lemma DivisorOrder(a: nat, b: nat, m: nat)
    requires 0 < a && 0 < b && m > 0 && m % a == 0 && m % b == 0
    ensures m / a > m / b <==> a < b
  {
    var x, y := m / a, m / b;
    assert m == x * a == y * b && x > 0 && y > 0;
    Exchange(x, a, y, b);
  }

  lemma Exchange(x: nat, a: nat, y: nat, b: nat)
    requires x * a == y * b && x > 0 && y > 0 && a > 0 && b > 0
    ensures x > y <==> a < b
  {
    if a < b {
      Shorter(x, a, y, b);
    } else if x > y {
      Shorter(a, y, b, x);
    }
  }

  lemma Shorter(x: nat, a: nat, y: nat, b: nat)
    requires x * a == y * b && y > 0 && a < b
    ensures x > y
  {
    assert y * b == y * a + y * (b - a);
    assert y * (b - a) > 0;
    if x <= y {
      MulMono(x, y, a);
    }
  }

  /** The round of the search in terms of the recorded multiples themselves. */
  function LookByTimes(s: Timers, i: nat, j: nat, large: Option<nat>, little: Option<nat>): Found
    requires i < |s.timers| == |s.aligns| && j < |s.timers| && PickOK(s, large, little)
  {
    if !Aligned(s, j) then Nearest(large, little)
    else if s.timers[j].interval == s.timers[i].interval then SameInterval
    else if !s.aligns[i].canMultiple || s.aligns[j].times == 0 then Nearest(large, little)
    else if s.aligns[i].times == 0 then NoTimes
    else if Multiple(s, i, j) then
      Nearest(if large.None? || s.aligns[large.value].times > s.aligns[j].times then Some(j) else large, little)
    else if Divisor(s, i, j) then
      Nearest(large, if little.None? || s.aligns[little.value].times < s.aligns[j].times then Some(j) else little)
    else Nearest(large, little)
  }

  lemma LookIsByTimes(s: Timers, i: nat, j: nat, large: Option<nat>, little: Option<nat>)
    requires i < |s.timers| == |s.aligns| && j < |s.timers| && PickOK(s, large, little)
    requires large.Some? ==> Multiple(s, i, large.value)
    requires little.Some? ==> Divisor(s, i, little.value)
    ensures Look(s, i, j, large, little) == LookByTimes(s, i, j, large, little)
  {
    if large.Some? && Multiple(s, i, j) {
      RatioOrder(s.aligns[large.value].times, s.aligns[j].times, s.aligns[i].times);
    }
    if little.Some? && Divisor(s, i, j) {
      DivisorOrder(s.aligns[little.value].times, s.aligns[j].times, s.aligns[i].times);
    }
  }

  lemma OnlyComparable(s: Timers, i: nat, j: nat)
    requires i < |s.aligns| && j < |s.aligns| == |s.timers|
    ensures Multiple(s, i, j) || Divisor(s, i, j) ==> Comparable(s, i, j)
    ensures !(Multiple(s, i, j) && Divisor(s, i, j))
  {
  }

  lemma LookStep(s: Timers, i: nat, seen: seq<Entry>, e: Entry, large: Option<nat>, little: Option<nat>)
    requires i < |s.aligns| == |s.timers| && PickOK(s, large, little) && e.id < |s.timers|
    requires forall x :: x in seen ==> x.id < |s.timers|
    requires NearestAmong(s, i, seen, large, little)
    ensures var f := Look(s, i, e.id, large, little);
            match f
            case SameInterval => Aligned(s, e.id) && s.timers[e.id].interval == s.timers[i].interval
            case NoTimes => s.aligns[i].times == 0
            case Nearest(l, t) => NearestAmong(s, i, seen + [e], l, t)
  {
    hide Look, Multiple, Divisor;
    LookIsByTimes(s, i, e.id, large, little);
    OnlyComparable(s, i, e.id);
    MoreLinked(seen, e);
    hide Linked;
  }

  lemma MoreLinked(s: seq<Entry>, e: Entry)
    ensures forall j :: Linked(s + [e], j) <==> Linked(s, j) || j == e.id
    ensures forall x {:trigger x in s + [e]} :: x in s + [e] <==> x in s || x == e
  {
    var r := s + [e];
    assert r[|s|] == e;
    forall j ensures Linked(r, j) <==> Linked(s, j) || j == e.id {
      if Linked(s, j) {
        var x :| x in s && x.id == j;
        assert x in r;
      }
    }
  }

  lemma {:induction false} SearchFrom(s: Timers, i: nat, seen: seq<Entry>, todo: seq<Entry>, large: Option<nat>,
                                      little: Option<nat>)
    requires i < |s.aligns| == |s.timers| && PickOK(s, large, little)
    requires forall e :: e in seen + todo ==> e.id < |s.timers|
    requires forall e :: e in seen ==> e in seen + todo
    requires forall e :: e in todo ==> e in seen + todo
    requires NearestAmong(s, i, seen, large, little)
    ensures var f := Search(s, i, todo, large, little);
            match f
            case SameInterval =>
              exists e :: e in todo && Aligned(s, e.id) && s.timers[e.id].interval == s.timers[i].interval
            case NoTimes => s.aligns[i].times == 0
            case Nearest(l, t) => NearestAmong(s, i, seen + todo, l, t)
    decreases |todo|
  {
    if todo == [] {
      assert seen + todo == seen;
    } else {
      var e := todo[0];
      assert e in todo;
      LookStep(s, i, seen, e, large, little);
      var f := Look(s, i, e.id, large, little);
      if f.Nearest? {
        assert seen + todo == (seen + [e]) + todo[1..];
        assert forall x :: x in todo[1..] ==> x in todo;
        SearchFrom(s, i, seen + [e], todo[1..], f.large, f.little);
      }
    }
  }

  /**
   * The search over the whole queue: it stops at a timer of the same interval, gives up when no multiple is recorded,
   * and otherwise has the nearest multiple and the nearest divisor, each found exactly when there is one.
   */
  lemma SearchFinds(s: Timers, i: nat)
    requires Shape(s) && i < s.cfg.limit
    ensures var f := Search(s, i, s.link, None, None);
            match f
            case SameInterval =>
              exists e :: e in s.link && Aligned(s, e.id) && s.timers[e.id].interval == s.timers[i].interval
            case NoTimes => s.aligns[i].times == 0
            case Nearest(l, t) => NearestAmong(s, i, s.link, l, t)
  {
    assert [] + s.link == s.link;
    SearchFrom(s, i, [], s.link, None, None);
  }

  /** `b` ticks are a whole number of `a`-tick intervals. */
  ghost predicate WholeNumber(a: nat, b: nat) {
    exists k: nat :: b == k * a
  }

  lemma IntervalsDivide(a: nat, b: nat)
    requires a > 0 && b % a == 0
    ensures WholeNumber(DIVISOR * a, DIVISOR * b)
  {
    var k := b / a;
    assert b == k * a;
    assert DIVISOR * b == k * (DIVISOR * a);
  }

  lemma MultipleMod(k: nat, interval: nat, left: nat)
    requires interval > 0 && left <= k * interval
    ensures (interval - (k * interval - left) % interval) % interval == left % interval
  {
    var x := k * interval - left;
    var q, r := x / interval, x % interval;
    assert x == q * interval + r;
    assert left == (k - q) * interval - r by {
      assert (k - q) * interval == k * interval - q * interval;
    }
    var y := interval - r;
    assert left == (k - q - 1) * interval + y by {
      assert (k - q) * interval == (k - q - 1) * interval + interval;
    }
    ModAdds(k - q - 1, interval, y);
  }

  lemma ModAdds(k: int, m: nat, y: nat)
    requires m > 0 && 0 <= k * m + y
    ensures (k * m + y) % m == y % m
  {
    var q, r := y / m, y % m;
    assert k * m + y == (k + q) * m + r by {
      assert (k + q) * m == k * m + q * m;
    }
    ModUnique(k * m + y, k + q, m, r);
  }

  /** The first count that alignment gives: at most the interval, and in step with the larger timer. */
  ghost predicate InStep(s: Timers, i: nat, curr: nat, count: nat)
    requires Shape(s) && i < s.cfg.limit && s.cfg.clock > 0
  {
    var f := Search(s, i, s.link, None, None);
    && count <= s.timers[i].interval
    && (f.Nearest? && f.large.Some? ==>
          && WholeNumber(s.timers[i].interval, s.timers[f.large.value].interval)
          && count > 0 && count % s.timers[i].interval == Left(s, curr, f.large.value) % s.timers[i].interval)
    && (f.Nearest? && f.large.None? && f.little.Some? ==>
          && WholeNumber(s.timers[f.little.value].interval, s.timers[i].interval)
          && count == Left(s, curr, f.little.value))
    && (f == SameInterval ==> count == 0)
  }

  /**
   * Alignment: provided the recorded multiples are right, the first count never exceeds the interval, and a timer
   * aligned to a larger one expires together with it.
   */
  lemma AlignmentOK(s: Timers, i: nat, curr: nat)
    requires Shape(s) && Words(s) && i < s.cfg.limit && s.timers[i].count == s.timers[i].interval > 0
    requires Sorted(s.link) && UniqueIds(s.link) && s.now <= curr
    requires forall e :: e in s.link ==> Recorded(s, e.id) || !Comparable(s, i, e.id)
    requires forall e :: e in s.link ==> e.time <= Deadline(curr, s.timers[e.id].interval, s.cfg.PerTick())
    requires s.aligns[i].canMultiple ==> Recorded(s, i)
    ensures InStep(s, i, curr, AlignedCount(s, i, curr))
  {
    SearchFinds(s, i);
    var f := Search(s, i, s.link, None, None);
    if f.Nearest? {
      if f.large.Some? {
        LargeInStep(s, i, curr, f.large.value);
      } else if f.little.Some? {
        LittleInStep(s, i, curr, f.little.value);
      }
    }
  }

  lemma LeftWithin(s: Timers, j: nat, curr: nat)
    requires Shape(s) && Words(s) && j < s.cfg.limit && Linked(s.link, j)
    requires forall e :: e in s.link ==> e.time <= Deadline(curr, s.timers[e.id].interval, s.cfg.PerTick())
    ensures Left(s, curr, j) <= s.timers[j].interval
  {
    TimeOfLinked(s.link, j);
    LeftBound(s.cfg, curr, TimeOf(s.link, j), s.timers[j].interval);
  }

  lemma LargeInStep(s: Timers, i: nat, curr: nat, j: nat)
    requires Shape(s) && Words(s) && i < s.cfg.limit && j < s.cfg.limit && s.timers[i].interval > 0
    requires Linked(s.link, j) && Multiple(s, i, j) && Recorded(s, i) && Recorded(s, j)
    requires forall e :: e in s.link ==> e.time <= Deadline(curr, s.timers[e.id].interval, s.cfg.PerTick())
    ensures var n := s.timers[i].interval;
            var c := AlignCount(n, s.timers[j].interval, Left(s, curr, j));
            0 < c <= n && c % n == Left(s, curr, j) % n && WholeNumber(n, s.timers[j].interval)
  {
    var n, left := s.timers[i].interval, Left(s, curr, j);
    LeftWithin(s, j, curr);
    IntervalsDivide(s.aligns[i].times, s.aligns[j].times);
    var k: nat :| s.timers[j].interval == k * n;
    MultipleMod(k, n, left);
  }

  lemma LittleInStep(s: Timers, i: nat, curr: nat, j: nat)
    requires Shape(s) && Words(s) && i < s.cfg.limit && j < s.cfg.limit
    requires Linked(s.link, j) && Divisor(s, i, j) && Recorded(s, i) && Recorded(s, j)
    requires forall e :: e in s.link ==> e.time <= Deadline(curr, s.timers[e.id].interval, s.cfg.PerTick())
    ensures Left(s, curr, j) <= s.timers[i].interval && WholeNumber(s.timers[j].interval, s.timers[i].interval)
  {
    LeftWithin(s, j, curr);
    IntervalsDivide(s.aligns[j].times, s.aligns[i].times);
  }

  // ---- Every operation keeps the invariant ----

  /** Timer `i` is in use and has just been taken off the queue, or was not on it. */
  ghost predicate Loose(s: Timers, i: nat) {
    && Shape(s) && i < s.cfg.limit
    && NoDup(s.free) && Sorted(s.link) && UniqueIds(s.link)
    && (forall j :: 0 <= j < s.cfg.limit && j != i ==> TimerOK(s, j))
    && !Linked(s.link, i) && i !in s.free
    && s.timers[i].id % s.cfg.limit == i && s.timers[i].id < s.cfg.MaxId()
    && 0 < s.timers[i].interval < WORD_RANGE
  }

  lemma LooseWords(s: Timers, i: nat)
    requires Loose(s, i)
    ensures Words(s)
  {
    forall j | 0 <= j < |s.timers| ensures s.timers[j].interval < WORD_RANGE {
      assert j != i ==> TimerOK(s, j);
    }
  }

  /** Only timer `i` and its place in the queue and on the free list differ. */
  ghost predicate OneTimer(s: Timers, s': Timers, i: nat) {
    && Shape(s) && Shape(s') && s'.cfg == s.cfg
    && (forall j :: 0 <= j < s.cfg.limit && j != i ==>
          && s'.timers[j] == s.timers[j] && s'.aligns[j] == s.aligns[j]
          && (Linked(s'.link, j) <==> Linked(s.link, j)) && (j in s'.free <==> j in s.free))
  }

  lemma OneTimerOK(s: Timers, s': Timers, i: nat)
    requires Shape(s) && i < s.cfg.limit && (forall j :: 0 <= j < s.cfg.limit && j != i ==> TimerOK(s, j))
    requires OneTimer(s, s', i) && TimerOK(s', i)
    requires NoDup(s'.free) && Sorted(s'.link) && UniqueIds(s'.link)
    ensures SwOK(s')
  {
    forall j | 0 <= j < s.cfg.limit ensures TimerOK(s', j) {
      assert j != i ==> TimerOK(s, j);
    }
  }

  lemma Linking(s: seq<Entry>, e: Entry)
    requires Sorted(s) && UniqueIds(s) && !Linked(s, e.id)
    ensures var r := Insert(s, e);
            && Sorted(r) && UniqueIds(r) && Linked(r, e.id)
            && (forall j :: j != e.id ==> (Linked(r, j) <==> Linked(s, j)))
  {
    InsertKeeps(s, e);
    forall j ensures Linked(Insert(s, e), j) <==> Linked(s, j) || j == e.id {
      InsertLinks(s, e, j);
    }
  }

  lemma Unlinking(s: seq<Entry>, i: nat)
    requires Sorted(s) && UniqueIds(s)
    ensures var r := Remove(s, i);
            && Sorted(r) && UniqueIds(r) && !Linked(r, i)
            && (forall j :: j != i ==> (Linked(r, j) <==> Linked(s, j)))
  {
    RemoveKeeps(s, i);
    forall j ensures Linked(Remove(s, i), j) <==> Linked(s, j) && j != i {
      RemoveLinks(s, i, j);
    }
  }

  /** The state in which OsSwtmrStart chooses the first count. */
  function Aligning(s: Timers, i: nat, curr: nat): Timers
    requires i < |s.timers| && i < |s.aligns|
  {
    SetAlign(SetTimer(s, i, s.timers[i].(count := s.timers[i].interval, state := Ticking)).(now := curr),
             i, s.aligns[i].(isAligned := true))
  }

  lemma StartShape(s: Timers, i: nat, curr: nat)
    requires Shape(s) && Words(s) && i < s.cfg.limit
    ensures Shape(Aligning(s, i, curr)) && Words(Aligning(s, i, curr))
    ensures var r := StartTimer(s, i, curr);
            var fits := s.aligns[i].canAlign && !s.aligns[i].isAligned;
            var n := if fits then AlignedCount(Aligning(s, i, curr), i, curr) else s.timers[i].interval;
            r == s.(timers := s.timers[i := s.timers[i].(count := n, state := Ticking)],
                    aligns := if fits then s.aligns[i := s.aligns[i].(isAligned := true)] else s.aligns,
                    now := curr, link := Insert(s.link, Entry(i, Deadline(curr, n, s.cfg.PerTick()))))
  {
    hide Search, AlignCount, Insert;
  }

  lemma StartTimerOK(s: Timers, i: nat, curr: nat)
    requires Loose(s, i)
    ensures Words(s) && SwOK(StartTimer(s, i, curr))
  {
    LooseWords(s, i);
    StartShape(s, i, curr);
    hide StartTimer, Insert, Sorted, UniqueIds, NoDup, AlignedCount, Words, Config.PerTick;
    var s' := StartTimer(s, i, curr);
    var n := s'.timers[i].count;
    Linking(s.link, Entry(i, Deadline(curr, n, s.cfg.PerTick())));
    hide Linked;
    OneTimerOK(s, s', i);
  }

  lemma StopTimerLoose(s: Timers, i: nat)
    requires SwOK(s) && i < s.cfg.limit && s.timers[i].state != Unused
    ensures Loose(StopTimer(s, i), i) && SwOK(StopTimer(s, i))
  {
    assert TimerOK(s, i);
    Unlinking(s.link, i);
    var s' := StopTimer(s, i);
    hide Remove, Linked, Sorted, UniqueIds, NoDup;
    OneTimerOK(s, s', i);
  }

  lemma FreeTimerOK(s: Timers, i: nat)
    requires Loose(s, i)
    ensures SwOK(FreeTimer(s, i))
  {
    OneTimerOK(s, FreeTimer(s, i), i);
  }

  lemma NextIdOK(cfg: Config, id: nat)
    requires cfg.OK() && id < cfg.MaxId()
    ensures NextId(cfg, id) % cfg.limit == id % cfg.limit && NextId(cfg, id) < cfg.MaxId()
  {
    MaxIdHoldsAll(cfg.limit, 0xFFFF_FFFF / cfg.limit);
    Bumped(cfg.limit, cfg.MaxId(), id);
  }

  lemma Bumped(m: nat, max: nat, id: nat)
    requires 0 < m <= max && id < max
    ensures var r := if id < max - m then id + m else id % m; r % m == id % m && r < max
  {
    if id < max - m {
      OneMore(m, id);
    } else {
      SmallMod(id % m, m);
    }
  }

  lemma SmallMod(r: nat, m: nat)
    requires r < m
    ensures r % m == r
  {
    ModUnique(r, 0, m, r);
  }

  lemma MaxIdHoldsAll(limit: nat, q: nat)
    requires 0 < limit && 0 < q
    ensures limit <= q * limit
  {
    assert (q - 1) * limit >= 0;
  }

  lemma OneMore(m: nat, y: nat)
    requires m > 0
    ensures (y + m) % m == y % m
  {
    assert y + m == 1 * m + y;
    ModAdds(1, m, y);
  }

  lemma ExpireOK(s: Timers, i: nat, curr: nat)
    requires Loose(s, i)
    ensures Words(s) && SwOK(Expire(s, i, curr))
  {
    LooseWords(s, i);
    match s.timers[i].mode {
      case Once =>
        FreeTimerOK(s, i);
        NextIdOK(s.cfg, s.timers[i].id);
        var s1 := FreeTimer(s, i);
        assert TimerOK(s1, i);
        hide Linked, Sorted, UniqueIds, NoDup, NextId, Config.MaxId;
        OneTimerOK(s1, Expire(s, i, curr), i);
      case Period => StartTimerOK(s, i, curr);
      case NoSelfDelete => OneTimerOK(s, Expire(s, i, curr), i);
    }
  }

  lemma CreatedLoose(s: Timers, i: nat)
    requires SwOK(s) && i < s.cfg.limit && s.timers[i].state == Created
    ensures Loose(s, i)
  {
    assert TimerOK(s, i);
  }

  lemma TailWithout(s: seq<nat>)
    requires NoDup(s) && s != []
    ensures NoDup(s[1..]) && forall j {:trigger j in s[1..]} {:trigger j in s} :: j in s[1..] <==> j in s && j != s[0]
  {
    forall j ensures j in s[1..] <==> j in s && j != s[0] {
      assert s == [s[0]] + s[1..];
    }
  }

  lemma CreateOK(s: Timers, interval: nat, mode: Mode, handler: nat, arg: nat, insensitive: bool)
    requires SwOK(s) && interval < WORD_RANGE
    ensures SwOK(Create(s, interval, mode, handler, arg, insensitive).s)
  {
    var o := Create(s, interval, mode, handler, arg, insensitive);
    if o.ret.Id? {
      var i := s.free[0];
      assert i in s.free && TimerOK(s, i);
      TailWithout(s.free);
      OneTimerOK(s, o.s, i);
    }
  }

  lemma NoteAlignOK(s: Timers, i: nat)
    requires SwOK(s) && i < s.cfg.limit && s.timers[i].state != Ticking
    ensures SwOK(NoteAlign(s, i))
  {
    assert TimerOK(s, i);
    OneTimerOK(s, NoteAlign(s, i), i);
  }

  lemma StartOK(s: Timers, id: nat, curr: nat)
    requires SwOK(s)
    ensures Words(s) && SwOK(Start(s, id, curr).s)
  {
    SwWords(s);
    var slot := Slot(s, id);
    if slot.Some? {
      var i := slot.value;
      assert TimerOK(s, i);
      if s.timers[i].state == Ticking {
        // Stopping and noting the alignment do not depend on each other but for the aligned mark.
        RestartLoose(s, i);
        StartTimerOK(StopTimer(NoteAlign(s, i), i), i, curr);
      } else {
        NoteAlignOK(s, i);
        if s.timers[i].state == Created {
          CreatedLoose(NoteAlign(s, i), i);
          StartTimerOK(NoteAlign(s, i), i, curr);
        }
      }
    }
  }

  lemma RestartLoose(s: Timers, i: nat)
    requires SwOK(s) && i < s.cfg.limit && s.timers[i].state == Ticking
    ensures Loose(StopTimer(NoteAlign(s, i), i), i)
  {
    assert TimerOK(s, i);
    Unlinking(s.link, i);
    var s' := StopTimer(NoteAlign(s, i), i);
    hide Remove, Linked, Sorted, UniqueIds, NoDup;
    forall j | 0 <= j < s.cfg.limit && j != i ensures TimerOK(s', j) {
      assert TimerOK(s, j);
    }
  }

  lemma StopOK(s: Timers, id: nat)
    requires SwOK(s)
    ensures SwOK(Stop(s, id).s)
  {
    var slot := Slot(s, id);
    if slot.Some? && s.timers[slot.value].state == Ticking {
      StopTimerLoose(s, slot.value);
    }
  }

  lemma DeleteOK(s: Timers, id: nat)
    requires SwOK(s)
    ensures SwOK(Delete(s, id).s)
  {
    var slot := Slot(s, id);
    if slot.Some? {
      var i := slot.value;
      match s.timers[i].state {
        case Unused =>
        case Ticking =>
          StopTimerLoose(s, i);
          FreeTimerOK(StopTimer(s, i), i);
        case Created =>
          CreatedLoose(s, i);
          FreeTimerOK(s, i);
      }
    }
  }
}
