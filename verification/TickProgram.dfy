/** kernel/src/los_sched.c: when the tick timer is to fire next. */
module TickProgram {
  import opened Sequences
  import opened Deadlines
  import opened KernelState
  import opened Sched
  import opened SchedProofs
  import opened SortLink

  const U64 := 0x1_0000_0000_0000_0000

  /** OS_SCHED_MAX_RESPONSE_TIME */
  const NEVER := 0xFFFF_FFFF_FFFF_FFFE

  /** Unsigned 64-bit subtraction. */
  function Minus(a: nat, b: nat): nat
    requires a < U64 && b < U64
  {
    if a >= b then a - b else a + U64 - b
  }

  /** `perTick` and `longest` bound what the tick timer can be loaded with; `window` is OS_US_PER_TICK. */
  datatype TimerConfig = TimerConfig(perTick: nat, longest: nat, window: nat)

  ghost predicate TimerConfigOK(c: TimerConfig) {
    0 < c.perTick <= c.longest < U64
  }

  /** When the timer fires, whose time slice that is (if it is one), and the interval just loaded (if any). */
  datatype Plan = Plan(time: nat, slice: Option<Tid>, reload: Option<nat>)

  function Earlier(a: nat, b: nat): nat {
    if a < b then a else b
  }

  /** OsGetNextExpireTime */
  function NextExpire(c: TimerConfig, tasks: seq<Entry>, swtmrs: seq<Entry>, start: nat): nat {
    Earlier(NextExpireTime(tasks, start, c.window), NextExpireTime(swtmrs, start, c.window))
  }

  /** OsSchedSetNextExpireTime; `next` is the result of OsGetNextExpireTime. */
  function SetNext(c: TimerConfig, plan: Plan, next: nat, start: nat, t: Tid, taskEnd: nat): Plan
    requires next < U64 && start < U64 && taskEnd < U64
  {
    var due := Earlier(taskEnd, next);
    var slice := if taskEnd < next then Some(t) else None;
    if plan.time > due && plan.time - due >= c.perTick then
      var interval := Minus(due, start);
      if interval > c.longest then Plan(start + c.longest, slice, Some(c.longest))
      else if interval < c.perTick then
        if start + c.perTick >= plan.time then plan.(reload := None)
        else Plan(start + c.perTick, slice, Some(c.perTick))
      else Plan(due, slice, Some(interval))
    else plan.(reload := None)
  }

  ghost predicate TimesOK(s: seq<Entry>) {
    forall i :: 0 <= i < |s| ==> s[i].time < INVALID_TIME
  }

  lemma {:induction false} FirstLaterFits(s: seq<Entry>, start: nat)
    requires TimesOK(s)
    ensures FirstLater(s, start) < INVALID_TIME
  {
    if s != [] {
      FirstLaterFits(s[1..], start);
    }
  }

  /** The earliest deadline of either queue as seen from `start`; the all-ones word when nobody waits. */
  function Soonest(tasks: seq<Entry>, swtmrs: seq<Entry>, start: nat): nat {
    Earlier(Head(tasks, start), Head(swtmrs, start))
  }

  function Head(s: seq<Entry>, start: nat): nat {
    if s == [] then INVALID_TIME else Earliest(s, start)
  }

  lemma Searched(s: seq<Entry>, start: nat, window: nat)
    requires TimesOK(s) && start < INVALID_TIME
    ensures Head(s, start) <= NextExpireTime(s, start, window) <= INVALID_TIME
    ensures start > 0 ==> NextExpireTime(s, start, window) <= Head(s, start) + window
  {
    FirstLaterFits(s, start);
    if s != [] {
      WithinWindow(s, start, window);
    }
  }

  /**
   * The response-time bound: the timer fires at most one window and one tick after the soonest deadline, and at most
   * one tick after the end of the running task's slice. The programmed time is never put off, and what is loaded into
   * the timer is within its range.
   */
  lemma ResponseBound(c: TimerConfig, plan: Plan, tasks: seq<Entry>, swtmrs: seq<Entry>, start: nat, t: Tid,
                      taskEnd: nat)
    requires TimerConfigOK(c) && TimesOK(tasks) && TimesOK(swtmrs)
    requires 0 < start < INVALID_TIME && start <= taskEnd < U64
    ensures NextExpire(c, tasks, swtmrs, start) < U64
    ensures var p := SetNext(c, plan, NextExpire(c, tasks, swtmrs, start), start, t, taskEnd);
            && p.time <= Soonest(tasks, swtmrs, start) + c.window + c.perTick
            && p.time <= taskEnd + c.perTick
            && p.time <= plan.time
            && (p.reload.Some? ==> c.perTick <= p.reload.value <= c.longest && p.time == start + p.reload.value)
            && (p.reload.None? ==> p == plan.(reload := None))
  {
    Searched(tasks, start, c.window);
    Searched(swtmrs, start, c.window);
    hide NextExpireTime, Head, TimesOK;
  }

  /** The timer is never programmed to fire before the next tick, nor more than a tick before anything is due. */
  lemma NoIdleFiring(c: TimerConfig, plan: Plan, tasks: seq<Entry>, swtmrs: seq<Entry>, start: nat, t: Tid,
                     taskEnd: nat)
    requires TimerConfigOK(c) && TimesOK(tasks) && TimesOK(swtmrs)
    requires start < INVALID_TIME && start <= taskEnd < U64
    ensures NextExpire(c, tasks, swtmrs, start) < U64
    ensures var p := SetNext(c, plan, NextExpire(c, tasks, swtmrs, start), start, t, taskEnd);
            p.reload.Some? ==>
              p.time == start + c.longest || p.time == start + c.perTick
              || p.time >= Earlier(Soonest(tasks, swtmrs, start), taskEnd)
  {
    Searched(tasks, start, c.window);
    Searched(swtmrs, start, c.window);
    hide NextExpireTime, Head, TimesOK;
  }

  /** Started at time 0 the search takes a deadline reached at 0 for none at all, and the bound fails. */
  lemma TimeZeroIsMissed()
    ensures var s := [Entry(0, 0), Entry(1, 500_000)];
            && Sorted(s) && Earliest(s, 0) == 0 && NextExpireTime(s, 0, 10_000) == 500_000
  {
    var s := [Entry(0, 0), Entry(1, 500_000)];
    FirstLaterAt(s, 0, 1);
  }

  /** When the running task has to give way: at the end of its slice, unless it is the idle task. */
  function EndTime(k: Kernel): int
    requires k.run < |k.tcbs|
  {
    if k.run == k.cfg.idle then NEVER else k.tcbs[k.run].start + k.tcbs[k.run].slice
  }

  lemma FreshSlice(k: Kernel, now: nat, k': Kernel)
    requires SchedOK(k) && Switchable(k) && k.now <= now && 0 <= k.cfg.sliceMin
    requires Top(Park(ChargeSlice(k, now))) < |k.tcbs| && k' == Switch(k, now)
    ensures k'.run < |k'.tcbs| && k'.tcbs[k'.run].start == now
    ensures k'.run != k'.cfg.idle ==> k'.tcbs[k'.run].slice > 0
  {
    ParkedFacts(k, now);
    SwitchIsElect(k, now);
    var kr := Parked(k, now);
    assert TaskOK(kr, Top(kr));
    hide Switch, Parked, Top, Park, ChargeSlice, ListsOK, Placed, Best;
  }

  lemma HeadFirst(s: seq<Entry>, e: Entry, start: nat)
    requires Sorted(s) && e in s
    ensures Head(s, start) <= if e.time <= start then start else e.time
  {
  }

  /**
   * The end of a task switch: the elected task has slice left, and the timer fires no later than a window and a tick
   * after any timed wait is over, and no later than a tick after the slice ends.
   */
  lemma SwitchResponse(c: TimerConfig, plan: Plan, k: Kernel, now: nat, k': Kernel, swtmrs: seq<Entry>)
    requires TimerConfigOK(c) && SchedOK(k) && Switchable(k) && 0 < now < NEVER && k.now <= now && 0 <= k.cfg.sliceMin
    requires Top(Park(ChargeSlice(k, now))) < |k.tcbs| && k' == Switch(k, now)
    requires TimesOK(k'.timers) && TimesOK(swtmrs)
    requires k'.run < |k'.tcbs| && EndTime(k') < U64
    ensures now < EndTime(k') && NextExpire(c, k'.timers, swtmrs, now) < U64
    ensures var p := SetNext(c, plan, NextExpire(c, k'.timers, swtmrs, now), now, k'.run, EndTime(k'));
            && (forall e :: e in k'.timers ==>
                  p.time <= (if e.time <= now then now else e.time) + c.window + c.perTick)
            && p.time <= EndTime(k') + c.perTick
  {
    FreshSlice(k, now, k');
    SwitchOK(k, now);
    ResponseBound(c, plan, k'.timers, swtmrs, now, k'.run, EndTime(k'));
    forall e | e in k'.timers ensures Soonest(k'.timers, swtmrs, now) <= if e.time <= now then now else e.time {
      HeadFirst(k'.timers, e, now);
    }
    hide SetNext, NextExpire, Switch, Top, Park, ChargeSlice, TimesOK, Best, Switchable, Quiet;
  }

  /** The globals of the tick: both deadline queues, and the time and owner of the programmed expiry. */
  class TickTimer {
    const config: TimerConfig
    const taskLink: SortLinkAttribute
    const swtmrLink: SortLinkAttribute
    var responseTime: nat
    var responseId: Option<Tid>
    /** The last value handed to HalSysTickReload by the call under way. */
    var reload: Option<nat>

    constructor (config: TimerConfig, taskLink: SortLinkAttribute, swtmrLink: SortLinkAttribute)
      requires TimerConfigOK(config)
      ensures this.config == config && this.taskLink == taskLink && this.swtmrLink == swtmrLink
      ensures Now() == Plan(NEVER, None, None)
    {
      this.config := config;
      this.taskLink := taskLink;
      this.swtmrLink := swtmrLink;
      responseTime := NEVER;
      responseId, reload := None, None;
    }

    ghost function Now(): Plan
      reads this
    {
      Plan(responseTime, responseId, reload)
    }

    /** OsGetNextExpireTime */
    method GetNextExpireTime(startTime: nat) returns (time: nat)
      requires taskLink.Chained() && swtmrLink.Chained()
      ensures time == NextExpire(config, taskLink.Entries(), swtmrLink.Entries(), startTime)
    {
      var taskExpireTime := taskLink.GetNextExpireTime(startTime, config.window);
      var swtmrExpireTime := swtmrLink.GetNextExpireTime(startTime, config.window);
      time := if taskExpireTime < swtmrExpireTime then taskExpireTime else swtmrExpireTime;
    }

    /** OsSchedSetNextExpireTime after its search for the next deadline. */
    method Program(next: nat, startTime: nat, id: Tid, taskEndTime: nat)
      requires next < U64 && startTime < U64 && taskEndTime < U64
      modifies this
      ensures Now() == SetNext(config, old(Now()), next, startTime, id, taskEndTime)
    {
      var nextExpireTime, isTimeSlice := next, false;
      reload := None;
      if taskEndTime < nextExpireTime {
        nextExpireTime := taskEndTime;
        isTimeSlice := true;
      }
      var nextResponseTime;
      if responseTime > nextExpireTime && responseTime - nextExpireTime >= config.perTick {
        nextResponseTime := Minus(nextExpireTime, startTime);
        if nextResponseTime > config.longest {
          nextResponseTime := config.longest;
          nextExpireTime := startTime + nextResponseTime;
        } else if nextResponseTime < config.perTick {
          nextResponseTime := config.perTick;
          nextExpireTime := startTime + nextResponseTime;
          if nextExpireTime >= responseTime {
            return;
          }
        }
      } else {
        return;
      }
      responseId := if isTimeSlice then Some(id) else None;
      responseTime := nextExpireTime;
      reload := Some(nextResponseTime);
    }

    /** OsSchedSetNextExpireTime */
    method SetNextExpireTime(startTime: nat, id: Tid, taskEndTime: nat)
      requires taskLink.Valid() && swtmrLink.Valid()
      requires TimesOK(taskLink.Entries()) && TimesOK(swtmrLink.Entries())
      requires startTime < INVALID_TIME && taskEndTime < U64
      modifies this
      ensures NextExpire(config, taskLink.Entries(), swtmrLink.Entries(), startTime) < U64
      ensures Now() == SetNext(config, old(Now()),
                               NextExpire(config, taskLink.Entries(), swtmrLink.Entries(), startTime),
                               startTime, id, taskEndTime)
    {
      Searched(taskLink.Entries(), startTime, config.window);
      Searched(swtmrLink.Entries(), startTime, config.window);
      hide NextExpireTime, TimesOK, Head, Sorted, SetNext, Times;
      var next := GetNextExpireTime(startTime);
      Program(next, startTime, id, taskEndTime);
    }

    /** OsSchedUpdateExpireTime: the slice of the running task ends the plan, the idle task has none. */
    method UpdateExpireTime(startTime: nat, run: Tid, idle: bool, timeSlice: int, sliceMin: int, sliceFull: nat)
      requires taskLink.Valid() && swtmrLink.Valid()
      requires TimesOK(taskLink.Entries()) && TimesOK(swtmrLink.Entries())
      requires 0 <= sliceMin && startTime + sliceFull < INVALID_TIME && startTime + timeSlice < INVALID_TIME
      modifies this
      ensures NextExpire(config, taskLink.Entries(), swtmrLink.Entries(), startTime) < U64
      ensures var taskEnd := if idle then NEVER else startTime + SliceLeft(timeSlice, sliceMin, sliceFull);
              Now() == SetNext(config, old(Now()),
                               NextExpire(config, taskLink.Entries(), swtmrLink.Entries(), startTime),
                               startTime, run, taskEnd)
    {
      var endTime := NEVER;
      if !idle {
        var slice := if timeSlice <= sliceMin then sliceFull else timeSlice;
        endTime := startTime + slice;
      }
      SetNextExpireTime(startTime, run, endTime);
    }
  }

  /** A slice that is used up counts as a new one. */
  function SliceLeft(slice: int, min: nat, full: nat): nat {
    if slice <= min then full else slice
  }
}
