/** kernel/src/los_swtmr.c: software timers. */
module SwTimer {
  import opened Sequences
  import opened Deadlines

  datatype Mode = Once | Period | NoSelfDelete
  datatype State = Unused | Created | Ticking

  /** SWTMR_CTRL_S; `insensitive` is OS_SWTMR_ALIGN_INSENSITIVE, a timer that may be aligned. */
  datatype Timer = Timer(state: State, mode: Mode, insensitive: bool, id: nat, count: nat, interval: nat,
                         handler: nat, arg: nat)

  /** SwtmrAlignData; `times` has 24 bits. */
  datatype Align = Align(times: nat, canMultiple: bool, canAlign: bool, isAligned: bool)

  const NO_ALIGN := Align(0, false, false, false)
  const DIVISOR := 10
  const TIMES_RANGE := 0x100_0000
  const WORD_RANGE := 0x1_0000_0000

  /** `perTick` is OS_CYCLE_PER_TICK, `rate` the ticks and `clock` the cycles of a second. */
  datatype Config = Config(limit: nat, rate: nat, clock: nat)
  {
    ghost predicate OK() {
      0 < limit <= 0x1_0000 && 0 < rate <= clock
    }

    function PerTick(): nat
      requires rate > 0
    {
      clock / rate
    }

    /** OS_SWTMR_MAX_TIMERID */
    function MaxId(): nat
      requires limit > 0
    {
      (0xFFFF_FFFF / limit) * limit
    }
  }

  /** `running` is LOS_TaskIsRunning; `now` the last reading of the clock. */
  datatype Timers = Timers(cfg: Config, timers: seq<Timer>, aligns: seq<Align>, free: seq<nat>, link: seq<Entry>,
                           now: nat, running: bool)

  ghost predicate Shape(s: Timers) {
    && s.cfg.OK()
    && |s.timers| == s.cfg.limit && |s.aligns| == s.cfg.limit
    && (forall e :: e in s.link ==> e.id < s.cfg.limit)
    && (forall i :: i in s.free ==> i < s.cfg.limit)
  }

  function SetTimer(s: Timers, i: nat, t: Timer): Timers
    requires i < |s.timers|
  {
    s.(timers := s.timers[i := t])
  }

  function SetAlign(s: Timers, i: nat, a: Align): Timers
    requires i < |s.aligns|
  {
    s.(aligns := s.aligns[i := a])
  }

  // ---- Remaining time ----

  /** OsSortLinkGetTargetExpireTime: whole ticks until `time`, in 32 bits. */
  function TicksUntil(cfg: Config, curr: nat, time: nat): nat
    requires cfg.clock > 0
  {
    if curr >= time then 0 else WholeTicks(cfg, time - curr) % WORD_RANGE
  }

  function WholeTicks(cfg: Config, cycles: nat): nat
    requires cfg.clock > 0
  {
    cycles * cfg.rate / cfg.clock
  }

  /** The deadline of a linked timer; an unlinked one has the all-ones word. */
  function TimeOf(link: seq<Entry>, i: nat): nat {
    if link == [] then 0xFFFF_FFFF_FFFF_FFFF
    else if link[0].id == i then link[0].time
    else TimeOf(link[1..], i)
  }

  function Left(s: Timers, curr: nat, i: nat): nat
    requires s.cfg.clock > 0
  {
    TicksUntil(s.cfg, curr, TimeOf(s.link, i))
  }

  // ---- Alignment ----

  /** OsSwtmrCalcAlignCount; the inner subtraction is on 32-bit words. */
  function AlignCount(interval: nat, larger: nat, left: nat): nat
    requires larger < WORD_RANGE && left < WORD_RANGE
  {
    if interval == 0 then 0
    else interval - (if larger >= left then larger - left else larger - left + WORD_RANGE) % interval
  }

  /** What the search has found: the nearest multiple, the nearest divisor, or a reason to stop. */
  datatype Found = Nearest(large: Option<nat>, little: Option<nat>) | SameInterval | NoTimes

  predicate Aligned(s: Timers, j: nat)
    requires j < |s.aligns|
  {
    s.aligns[j].isAligned && s.aligns[j].canAlign
  }

  /** One round of the search of OsSwtmrFindAlignPos on behalf of timer `i`: looking at timer `j`. */
  function Look(s: Timers, i: nat, j: nat, large: Option<nat>, little: Option<nat>): Found
    requires i < |s.timers| == |s.aligns| && j < |s.timers|
    requires large.Some? ==> large.value < |s.aligns|
    requires little.Some? ==> little.value < |s.aligns| && s.aligns[little.value].times > 0
  {
    var mine, other := s.aligns[i].times, s.aligns[j].times;
    if !Aligned(s, j) then Nearest(large, little)
    else if s.timers[j].interval == s.timers[i].interval then SameInterval
    else if !s.aligns[i].canMultiple || other == 0 then Nearest(large, little)
    else if mine == 0 then NoTimes
    else if other >= mine && other % mine == 0 then
      if large.None? || s.aligns[large.value].times / mine > other / mine then Nearest(Some(j), little)
      else Nearest(large, little)
    else if other < mine && mine % other == 0 then
      if little.None? || mine / s.aligns[little.value].times > mine / other then Nearest(large, Some(j))
      else Nearest(large, little)
    else Nearest(large, little)
  }

  ghost predicate PickOK(s: Timers, large: Option<nat>, little: Option<nat>)
    requires |s.timers| == |s.aligns|
  {
    && (large.Some? ==> large.value < |s.timers|)
    && (little.Some? ==> little.value < |s.timers| && s.aligns[little.value].times > 0)
  }

  function Search(s: Timers, i: nat, todo: seq<Entry>, large: Option<nat>, little: Option<nat>): (r: Found)
    requires i < |s.timers| == |s.aligns| && PickOK(s, large, little)
    requires forall e :: e in todo ==> e.id < |s.timers|
    ensures r.Nearest? ==> PickOK(s, r.large, r.little)
    decreases |todo|
  {
    if todo == [] then Nearest(large, little)
    else
      assert todo[0] in todo;
      var f := Look(s, i, todo[0].id, large, little);
      if f.Nearest? then Search(s, i, todo[1..], f.large, f.little) else f
  }

  /** The count OsSwtmrFindAlignPos leaves in timer `i`, whose count is its interval so far. */
  function AlignedCount(s: Timers, i: nat, curr: nat): nat
    requires Shape(s) && i < s.cfg.limit && forall j :: 0 <= j < s.cfg.limit ==> s.timers[j].interval < WORD_RANGE
  {
    match Search(s, i, s.link, None, None)
    case SameInterval => 0
    case NoTimes => s.timers[i].count
    case Nearest(Some(j), _) => AlignCount(s.timers[i].interval, s.timers[j].interval, Left(s, curr, j))
    case Nearest(None, Some(j)) => Left(s, curr, j)
    case Nearest(None, None) => s.timers[i].count
  }

  // ---- Operations ----

  ghost predicate Words(s: Timers) {
    forall j :: 0 <= j < |s.timers| ==> s.timers[j].interval < WORD_RANGE
  }

  /** OsSwtmrStart */
  function StartTimer(s: Timers, i: nat, curr: nat): Timers
    requires Shape(s) && Words(s) && i < s.cfg.limit
  {
    var s1 := SetTimer(s, i, s.timers[i].(count := s.timers[i].interval, state := Ticking)).(now := curr);
    var s2 := if s.aligns[i].canAlign && !s.aligns[i].isAligned then
                var s3 := SetAlign(s1, i, s1.aligns[i].(isAligned := true));
                SetTimer(s3, i, s3.timers[i].(count := AlignedCount(s3, i, curr)))
              else s1;
    s2.(link := Insert(s2.link, Entry(i, Deadline(curr, s2.timers[i].count, s.cfg.PerTick()))))
  }

  /** OsSwtmrStop */
  function StopTimer(s: Timers, i: nat): Timers
    requires i < |s.timers| && i < |s.aligns|
  {
    var s1 := SetTimer(s, i, s.timers[i].(state := Created)).(link := Remove(s.link, i));
    if s.running then SetAlign(s1, i, s1.aligns[i].(isAligned := false)) else s1
  }

  /** OsSwtmrDelete */
  function FreeTimer(s: Timers, i: nat): Timers
    requires i < |s.timers| && i < |s.aligns|
  {
    SetAlign(SetTimer(s, i, s.timers[i].(state := Unused)).(free := [i] + s.free), i, NO_ALIGN)
  }

  function NextId(cfg: Config, id: nat): nat
    requires cfg.limit > 0
  {
    if id < cfg.MaxId() - cfg.limit then id + cfg.limit else id % cfg.limit
  }

  /** OsSwtmrTimeoutHandle, after the handler has been queued; `curr` is the clock at a restart. */
  function Expire(s: Timers, i: nat, curr: nat): Timers
    requires Shape(s) && Words(s) && i < s.cfg.limit
  {
    match s.timers[i].mode
    case Once =>
      var s1 := FreeTimer(s, i);
      SetTimer(s1, i, s1.timers[i].(id := NextId(s.cfg, s1.timers[i].id)))
    case Period => StartTimer(s, i, curr)
    case NoSelfDelete => SetTimer(s, i, s.timers[i].(state := Created))
  }

  datatype Error = IdInvalid | NotCreated | NotStarted | IntervalNotSuited | PtrNull | MaxSize
  datatype Ret = Ok | Fail(error: Error) | Id(id: nat) | Ticks(ticks: nat)
  datatype Out = Out(s: Timers, ret: Ret)

  /** LOS_SwtmrCreate; handler 0 is NULL. */
  function Create(s: Timers, interval: nat, mode: Mode, handler: nat, arg: nat, insensitive: bool): Out
    requires Shape(s)
  {
    if interval == 0 then Out(s, Fail(IntervalNotSuited))
    else if handler == 0 then Out(s, Fail(PtrNull))
    else if s.free == [] then Out(s, Fail(MaxSize))
    else
      var i := s.free[0];
      assert i in s.free;
      var id := s.timers[i].id;
      Out(SetTimer(s.(free := s.free[1..]), i, Timer(Created, mode, insensitive, id, 0, interval, handler, arg)),
          Id(id))
  }

  /** The slot of an identifier that is current, if it is. */
  function Slot(s: Timers, id: nat): Option<nat>
    requires Shape(s)
  {
    if id >= s.cfg.MaxId() then None
    else if s.timers[id % s.cfg.limit].id != id then None
    else Some(id % s.cfg.limit)
  }

  /** What LOS_SwtmrStart records about alignment, whatever state the timer is in. */
  function NoteAlign(s: Timers, i: nat): Timers
    requires i < |s.timers| && i < |s.aligns|
  {
    var t, a := s.timers[i], s.aligns[i];
    if t.insensitive && t.mode == Period then
      var a1 := a.(canAlign := true);
      SetAlign(s, i, if t.interval % DIVISOR == 0 then
                       a1.(canMultiple := true, times := t.interval / DIVISOR % TIMES_RANGE)
                     else a1)
    else s
  }

  /** LOS_SwtmrStart */
  function Start(s: Timers, id: nat, curr: nat): Out
    requires Shape(s) && Words(s)
  {
    var slot := Slot(s, id);
    if slot.None? then Out(s, Fail(IdInvalid))
    else
      var i := slot.value;
      var s1 := NoteAlign(s, i);
      match s.timers[i].state
      case Unused => Out(s1, Fail(NotCreated))
      case Ticking => StopShape(s1, i); Out(StartTimer(StopTimer(s1, i), i, curr), Ok)
      case Created => Out(StartTimer(s1, i, curr), Ok)
  }

  lemma StopShape(s: Timers, i: nat)
    requires Shape(s) && Words(s) && i < s.cfg.limit
    ensures Shape(StopTimer(s, i)) && Words(StopTimer(s, i))
  {
  }

  /** LOS_SwtmrStop */
  function Stop(s: Timers, id: nat): Out
    requires Shape(s)
  {
    var slot := Slot(s, id);
    if slot.None? then Out(s, Fail(IdInvalid))
    else
      match s.timers[slot.value].state
      case Unused => Out(s, Fail(NotCreated))
      case Created => Out(s, Fail(NotStarted))
      case Ticking => Out(StopTimer(s, slot.value), Ok)
  }

  /** LOS_SwtmrTimeGet */
  function TimeGet(s: Timers, id: nat, curr: nat): Out
    requires Shape(s)
  {
    var slot := Slot(s, id);
    if slot.None? then Out(s, Fail(IdInvalid))
    else
      match s.timers[slot.value].state
      case Unused => Out(s, Fail(NotCreated))
      case Created => Out(s, Fail(NotStarted))
      case Ticking => Out(s, Ticks(Left(s, curr, slot.value)))
  }

  /** LOS_SwtmrDelete */
  function Delete(s: Timers, id: nat): Out
    requires Shape(s)
  {
    var slot := Slot(s, id);
    if slot.None? then Out(s, Fail(IdInvalid))
    else
      match s.timers[slot.value].state
      case Unused => Out(s, Fail(NotCreated))
      case Ticking => Out(FreeTimer(StopTimer(s, slot.value), slot.value), Ok)
      case Created => Out(FreeTimer(s, slot.value), Ok)
  }
}
