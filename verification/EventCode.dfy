/** The event calls on the kernel's globals: a write walks its wait list and removes from it on the way. */
module EventCode {
  import opened Sequences
  import opened KernelState
  import opened Sched
  import opened TaskProofs
  import opened KernelObjects
  import opened SchedCode
  import opened ObjectFacts
  import opened EventFlags
  import opened ReadyBitmap
  import EventProofs

  lemma HasEvent(g: Globals, e: nat)
    ensures e < g.events.Length ==> g.HasList(EventList(e))
  {
  }

  /** LOS_EventInit, for an event that nobody waits for: its list head is already a lone ring. */
  method EventInit(g: Globals, e: nat) returns (ret: Ret, sched: bool)
    requires g.Valid()
    modifies g.Parts()
    ensures g.Valid() && Out(g.abs, ret, sched) == Init(old(g.abs), e)
  {
    hide Globals.Valid, Globals.Parts;
    g.ObjectAt();
    if e >= g.events.Length {
      return Fail(EventNotInitialized), false;
    }
    g.StoreEvent(e, Event(true, 0));
    return Ok, false;
  }

  /** LOS_EventPoll; `bits` is the word the source is given a pointer to. */
  method EventPoll(eventID: bv32, eventMask: bv32, mode: bv32) returns (bits: bv32, ret: bv32)
    ensures EventProofs.Polled(eventID, eventMask, mode, bits, ret)
  {
    EventProofs.KeepAll(eventID);
    ret := MatchingBits(eventID, eventMask, mode);
    bits := if ret != 0 && mode & MODE_CLR != 0 then eventID & !ret else eventID;
    hide EventProofs.Asked;
  }

  method MatchingBits(eventID: bv32, eventMask: bv32, mode: bv32) returns (ret: bv32)
    ensures ret != 0 <==> EventProofs.Asked(eventID, eventMask, mode)
    ensures ret != 0 ==> ret == eventID & eventMask
  {
    ret := 0;
    if mode & MODE_OR != 0 {
      if eventID & eventMask != 0 {
        ret := eventID & eventMask;
      }
    } else {
      if eventMask != 0 && eventMask == eventID & eventMask {
        ret := eventID & eventMask;
      }
    }
  }

  method PollEvent(g: Globals, e: nat, eventMask: bv32, mode: bv32) returns (got: bv32)
    requires g.Valid() && e < g.events.Length
    modifies g.Parts()
    ensures g.Valid() && e < |old(g.abs).obj.events|
    ensures Out(g.abs, Bits(got), false) == PollNow(old(g.abs), e, eventMask, mode)
  {
    hide Globals.TasksAre, Globals.LinksAre, Globals.TimersAre, Globals.ObjectsAre, Agrees, Poll,
         EventProofs.Polled;
    g.ObjectAt();
    var bits;
    bits, got := EventPoll(g.events[e].bits, eventMask, mode);
    PolledIs(g.abs, e, eventMask, mode, g.events[e], bits, got);
    g.StoreEvent(e, g.events[e].(bits := bits));
  }

  lemma PolledIs(k: Kernel, e: nat, mask: bv32, mode: bv32, x: Event, bits: bv32, got: bv32)
    requires e < |k.obj.events| && k.obj.events[e] == x
    requires EventProofs.Polled(x.bits, mask, mode, bits, got)
    ensures PollNow(k, e, mask, mode) == Out(SetEvent(k, e, x.(bits := bits)), Bits(got), false)
  {
    hide Poll, EventProofs.Polled;
    EventProofs.PollExactly(x.bits, mask, mode, bits, got);
  }

  /** LOS_EventRead up to the switch; a task that is made to wait goes on in `Finish`. */
  method EventRead(g: Globals, e: nat, eventMask: bv32, mode: bv32, timeout: nat, inInt: bool)
        returns (ret: Ret, sched: bool)
    requires g.Valid() && KernelOK(g.abs) == true
    modifies g.Parts()
    ensures g.Valid() && old(g.abs).run < |old(g.abs).tcbs|
    ensures Out(g.abs, ret, sched) == Read(old(g.abs), e, eventMask, mode, timeout, inInt)
  {
    hide Globals.Valid, Globals.Parts, KernelOK, Match, Wait, Nowhere, Homed;
    RunFree(g.abs);
    g.ObjectAt();
    if e >= g.events.Length {
      return Fail(EventNotInitialized), false;
    }
    if !g.events[e].ready {
      return Fail(EventNotInitialized), false;
    }
    if eventMask == 0 {
      return Fail(EventMaskInvalid), false;
    }
    if eventMask & ERROR_BIT != 0 {
      return Fail(EventBitInvalid), false;
    }
    if (mode & MODE_OR != 0 && mode & MODE_AND != 0)
       || mode & !(MODE_OR | MODE_AND | MODE_CLR) != 0 || mode & (MODE_OR | MODE_AND) == 0 {
      return Fail(EventFlagsInvalid), false;
    }
    if inInt {
      return Fail(EventReadInInterrupt), false;
    }
    var got := PollEvent(g, e, eventMask, mode);
    if got != 0 || timeout == 0 {
      return Bits(got), false;
    }
    g.RunAt();
    if g.taskLock != 0 {
      return Fail(EventReadInLock), false;
    }
    var runTask := g.runTask.taskID;
    g.TaskAt(runTask);
    g.SetEvent(runTask, eventMask, mode);
    g.ObjectAt();
    HasEvent(g, e);
    SchedTaskWait(g, EventCall(e, eventMask, mode), timeout);
    return Waiting, true;
  }

  // ---- LOS_EventWrite: the traversal of the wait list, with removal ----

  lemma ReadyToWalk(k: Kernel, e: nat, events: bv32, x: Event)
    requires KernelOK(k) && e < |k.obj.events| && k.obj.events[e].ready && events & ERROR_BIT == 0
    requires x == k.obj.events[e].(bits := k.obj.events[e].bits | events)
    ensures Members(k, EventList(e))
    ensures var k1 := EventProofs.Written(k, e, events);
            var l := At(k.lists, EventList(e));
            && PutEvent(k, e, x) == k1
            && k1.lists == k.lists && Members(k1, EventList(e)) && EventProofs.Walking(k1, e, [], l)
               && (forall t :: t in l ==> t < |k1.tcbs|)
            && var r := WakeWhere(k1, l, EventProofs.WriteTest(k, e, events)); Write(k, e, events) == Out(r.0, Ok, r.1)
  {
    EventProofs.EventMembers(k, e);
    EventProofs.EventSet(k, e, k.obj.events[e].(bits := k.obj.events[e].bits | events));
    var l := At(k.lists, EventList(e));
    assert [] + l == l;
  }

  lemma WriteRefused(k: Kernel, e: nat, events: bv32)
    requires Members(k, EventList(e))
    ensures e >= |k.obj.events| || !k.obj.events[e].ready ==>
              Write(k, e, events) == Out(k, Fail(EventNotInitialized), false)
    ensures e < |k.obj.events| && k.obj.events[e].ready && events & ERROR_BIT != 0 ==>
              Write(k, e, events) == Out(k, Fail(EventBitInvalid), false)
  {
    hide WakeWhere;
  }

  /** The walker stands at the first task of `todo`, behind it the tasks it has passed over. */
  lemma RoundReady(k: Kernel, e: nat, kept: seq<Tid>, todo: seq<Tid>, test: (bv32, bv32) -> bool)
    requires EventProofs.Walking(k, e, kept, todo) && todo != []
    ensures var t, l := todo[0], At(k.lists, EventList(e));
            && |kept| < |l| && l[|kept|] == t
            && (if |todo| > 1 then |kept| + 1 < |l| && l[|kept| + 1] == todo[1] else |kept| + 1 == |l|)
            && Wakeable(k, t) && t < |k.tcbs|
    ensures forall t :: t in todo ==> t < |k.tcbs|
    ensures var k1 := if Hit(k, todo[0], test) then Wake(k, todo[0]) else k;
            && EventProofs.Walking(k1, e, if Hit(k, todo[0], test) then kept else kept + [todo[0]], todo[1..])
            && k1.obj == k.obj && (forall t :: t in todo[1..] ==> t < |k1.tcbs|)
            && WakeWhere(k, todo, test) ==
               (WakeWhere(k1, todo[1..], test).0, Hit(k, todo[0], test) || WakeWhere(k1, todo[1..], test).1)
  {
    EventProofs.WalkHit(k, e, kept, todo, test);
    EventProofs.WalkMiss(k, e, kept, todo);
    var l := At(k.lists, EventList(e));
    assert l[|kept|] == todo[0] && l[|kept|] in l;
    Waiter(k, EventList(e), todo[0]);
    WalkStarts(k, todo, test);
    hide Wakeable, Wake, WakeWhere;
  }

  lemma WalkStarts(k: Kernel, todo: seq<Tid>, test: (bv32, bv32) -> bool)
    requires todo != [] && forall t :: t in todo ==> t < |k.tcbs|
    ensures todo[0] < |k.tcbs| && forall t :: t in todo[1..] ==> t < |k.tcbs|
    ensures var k1 := if Hit(k, todo[0], test) then Wake(k, todo[0]) else k;
            && |k1.tcbs| == |k.tcbs| && k1.obj == k.obj
            && WakeWhere(k, todo, test) ==
               (WakeWhere(k1, todo[1..], test).0, Hit(k, todo[0], test) || WakeWhere(k1, todo[1..], test).1)
  {
    assert todo[0] in todo && forall t :: t in todo[1..] ==> t in todo;
    hide Wake, Hit;
  }

  lemma WalkEnds(k: Kernel, test: (bv32, bv32) -> bool)
    ensures WakeWhere(k, [], test) == (k, false)
  {
  }

  /** The condition of the source for the task the walker stands at. */
  lemma TestIs(k0: Kernel, k: Kernel, e: nat, events: bv32, t: Tid)
    requires e < |k0.obj.events| && k.obj == EventProofs.Written(k0, e, events).obj && t < |k.tcbs|
    ensures e < |k.obj.events|
    ensures Hit(k, t, EventProofs.WriteTest(k0, e, events))
            == Satisfied(k.tcbs[t].eventMask, k.tcbs[t].eventMode, events, k.obj.events[e].bits)
  {
    EventProofs.TestApplies(k.tcbs[t].eventMask, k.tcbs[t].eventMode, k0, e, events);
    hide Satisfied, EventProofs.WriteTest;
  }

  /** LOS_EventWrite */
  method EventWrite(g: Globals, e: nat, events: bv32) returns (ret: Ret, sched: bool)
    requires g.Valid() && KernelOK(g.abs) == true
    modifies g.Parts()
    ensures g.Valid() && Members(old(g.abs), EventList(e))
    ensures Out(g.abs, ret, sched) == Write(old(g.abs), e, events)
  {
    hide *;
    ghost var k := g.abs;
    FirstWaiter(k, EventList(e));
    WriteRefused(k, e, events);
    g.ObjectAt();
    if e >= g.events.Length {
      return Fail(EventNotInitialized), false;
    }
    if !g.events[e].ready {
      return Fail(EventNotInitialized), false;
    }
    if events & ERROR_BIT != 0 {
      return Fail(EventBitInvalid), false;
    }
    var eventCB := g.events[e].(bits := g.events[e].bits | events);
    ReadyToWalk(k, e, events, eventCB);
    g.StoreEvent(e, eventCB);
    ret := Ok;
    sched := WakeReaders(g, e, events, k);
  }

  method WakeReaders(g: Globals, e: nat, events: bv32, ghost k: Kernel) returns (exitFlag: bool)
    requires g.Valid() && e < g.events.Length && e < |k.obj.events|
    requires g.abs.obj == EventProofs.Written(k, e, events).obj
    requires EventProofs.Walking(g.abs, e, [], At(g.abs.lists, EventList(e))) == true
    requires Members(g.abs, EventList(e))
    modifies g.Parts()
    ensures g.Valid() && Members(old(g.abs), EventList(e))
    ensures (g.abs, exitFlag) == WakeWhere(old(g.abs), At(old(g.abs).lists, EventList(e)),
                                           EventProofs.WriteTest(k, e, events))
  {
    hide *;
    ghost var k1 := g.abs;
    ghost var test := EventProofs.WriteTest(k, e, events);
    ghost var kept: seq<Tid>, todo: seq<Tid> := [], At(k1.lists, EventList(e));
    MembersAre(k1, EventList(e));
    exitFlag := false;
    var resumedTask: Option<Tid> := None;
    HasEvent(g, e);
    var empty := g.ListEmpty(EventList(e));
    if !empty {
      var first := g.ListFirst(EventList(e));
      resumedTask := Some(first);
    }
    while resumedTask.Some?
      invariant g.Valid() && EventProofs.Walking(g.abs, e, kept, todo)
                && g.abs.obj == EventProofs.Written(k, e, events).obj
      invariant resumedTask == if todo == [] then None else Some(todo[0])
      invariant forall t :: t in todo ==> t < |g.abs.tcbs|
      invariant forall t :: t in At(k1.lists, EventList(e)) ==> t < |k1.tcbs|
      invariant WakeWhere(k1, At(k1.lists, EventList(e)), test)
                == (WakeWhere(g.abs, todo, test).0, exitFlag || WakeWhere(g.abs, todo, test).1)
      decreases |todo|
    {
      var t := resumedTask.value;
      RoundReady(g.abs, e, kept, todo, test);
      WakeableFacts(g.abs, t);
      TestIs(k, g.abs, e, events, t);
      HasEvent(g, e);
      g.RunAt();
      g.TaskAt(t);
      g.ObjectAt();
      var nextTask := g.ListNext(EventList(e), t, |kept|);
      if Satisfied(g.tasks[t].eventMask, g.tasks[t].eventMode, events, g.events[e].bits) {
        exitFlag := true;
        SchedTaskWake(g, t);
      } else {
        kept := kept + [t];
      }
      todo := todo[1..];
      resumedTask := nextTask;
    }
    WalkEnds(g.abs, test);
  }

  lemma MembersAre(k: Kernel, l: ListId)
    requires Members(k, l)
    ensures forall t :: t in At(k.lists, l) ==> t < |k.tcbs|
  {
  }

  /** LOS_EventClear */
  method EventClear(g: Globals, e: nat, events: bv32) returns (ret: Ret, sched: bool)
    requires g.Valid()
    modifies g.Parts()
    ensures g.Valid() && Out(g.abs, ret, sched) == Clear(old(g.abs), e, events)
  {
    hide Globals.Valid, Globals.Parts;
    g.ObjectAt();
    if e >= g.events.Length {
      return Fail(EventNotInitialized), false;
    }
    g.StoreEvent(e, g.events[e].(bits := g.events[e].bits & events));
    return Ok, false;
  }

  /** LOS_EventDestroy */
  method EventDestroy(g: Globals, e: nat) returns (ret: Ret, sched: bool)
    requires g.Valid()
    modifies g.Parts()
    ensures g.Valid() && Out(g.abs, ret, sched) == Destroy(old(g.abs), e)
  {
    hide Globals.Valid, Globals.Parts;
    g.ObjectAt();
    if e >= g.events.Length {
      return Fail(EventNotInitialized), false;
    }
    HasEvent(g, e);
    var empty := g.ListEmpty(EventList(e));
    if !empty {
      return Fail(EventInUse), false;
    }
    g.ObjectAt();
    g.StoreEvent(e, g.events[e].(ready := false));
    return Ok, false;
  }
}
