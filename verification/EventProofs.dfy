/** No reader is left waiting for bits that are already set. */
module EventProofs {
  import opened Sequences
  import opened KernelState
  import opened Sched
  import opened SchedProofs
  import opened Invariants
  import opened TaskProofs
  import opened ObjectProofs
  import opened EventFlags

  /** Clearing bits satisfies nobody. */
  lemma ClearingSatisfiesNobody(bits: bv32, keep: bv32, mask: bv32, mode: bv32)
    requires Match(bits, mask, mode) == 0 && mask != 0
    ensures Match(bits & keep, mask, mode) == 0
  {
  }

  lemma OrWaiter(before: bv32, written: bv32, mask: bv32)
    requires before & mask == 0
    ensures (before | written) & mask == mask & written
  {
  }

  lemma ModeBits(mode: bv32)
    requires ModeOK(mode)
    ensures mode & MODE_OR != 0 <==> mode & MODE_AND == 0
  {
  }

  lemma AndCommutes(bits: bv32, mask: bv32)
    ensures bits & mask == mask & bits
  {
  }

  /** What a write makes of the event's bits. */
  predicate Adds(before: bv32, written: bv32, bits: bv32) {
    bits == before | written
  }

  /** A waiter passed over is still unsatisfied, although an OR waiter was compared with the new bits only. */
  lemma PassedOverUnsatisfied(mask: bv32, mode: bv32, before: bv32, written: bv32, bits: bv32)
    requires ModeOK(mode) == true && mask != 0 && Match(before, mask, mode) == 0
    requires Adds(before, written, bits) == true
    ensures Satisfied(mask, mode, written, bits) <==> Match(bits, mask, mode) != 0
  {
    ModeBits(mode);
    if mode & MODE_OR != 0 {
      OrWaiter(before, written, mask);
    } else {
      AndCommutes(bits, mask);
    }
  }

  /** The waiters a write leaves, in their order. */
  function Unsatisfied(k: Kernel, l: seq<Tid>, test: (bv32, bv32) -> bool): (r: seq<Tid>)
    requires forall t :: t in l ==> t < |k.tcbs|
    ensures forall t {:trigger t in r} :: t in r <==> t in l && !Hit(k, t, test)
    decreases |l|
  {
    if l == [] then []
    else
      assert l[0] in l && forall t :: t in l[1..] ==> t in l;
      (if Hit(k, l[0], test) then [] else [l[0]]) + Unsatisfied(k, l[1..], test)
  }

  /** The condition a reader waits for: any bit of its mask, or all of them. */
  predicate Asked(bits: bv32, mask: bv32, mode: bv32) {
    if mode & MODE_OR != 0 then bits & mask != 0 else mask != 0 && bits & mask == mask
  }

  /** What a poll answers and leaves. */
  predicate Polled(bits: bv32, mask: bv32, mode: bv32, rest: bv32, got: bv32) {
    && (got != 0 <==> Asked(bits, mask, mode))
    && (got != 0 ==> got == bits & mask)
    && rest == (if mode & MODE_CLR != 0 then bits & !got else bits)
  }

  /** A poll gives bits exactly when the condition holds, gives all of the mask that are set, and takes only those. */
  lemma PollExactly(bits: bv32, mask: bv32, mode: bv32, rest: bv32, got: bv32)
    ensures (rest, got) == Poll(bits, mask, mode) <==> Polled(bits, mask, mode, rest, got)
  {
    if Polled(bits, mask, mode, rest, got) {
      PolledPoll(bits, mask, mode, rest, got);
    }
    if (rest, got) == Poll(bits, mask, mode) {
      PollPolled(bits, mask, mode);
    }
    hide Poll, Polled;
  }

  lemma PolledPoll(bits: bv32, mask: bv32, mode: bv32, rest: bv32, got: bv32)
    requires Polled(bits, mask, mode, rest, got)
    ensures (rest, got) == Poll(bits, mask, mode)
  {
    hide Poll, Polled;
    PollPolled(bits, mask, mode);
    var once := Poll(bits, mask, mode);
    PolledOnce(bits, mask, mode, (rest, got), once);
  }

  lemma PolledOnce(bits: bv32, mask: bv32, mode: bv32, r: (bv32, bv32), r': (bv32, bv32))
    requires Polled(bits, mask, mode, r.0, r.1) && Polled(bits, mask, mode, r'.0, r'.1)
    ensures r == r'
  {
    hide Asked;
    assert r.1 == r'.1;
  }

  lemma PollPolled(bits: bv32, mask: bv32, mode: bv32)
    ensures var (rest, got) := Poll(bits, mask, mode); Polled(bits, mask, mode, rest, got)
  {
    KeepAll(bits);
    MatchExactly(bits, mask, mode);
    hide Match, Asked;
  }

  lemma MatchExactly(bits: bv32, mask: bv32, mode: bv32)
    ensures Match(bits, mask, mode) == if Asked(bits, mask, mode) then bits & mask else 0
    ensures Asked(bits, mask, mode) ==> bits & mask != 0
  {
  }

  lemma KeepAll(bits: bv32)
    ensures bits & !0 == bits
  {
  }

  lemma {:induction false} UnsatisfiedSame(k: Kernel, k': Kernel, l: seq<Tid>, test: (bv32, bv32) -> bool)
    requires forall t :: t in l ==> t < |k.tcbs| && t < |k'.tcbs|
    requires forall t :: t in l ==> (Hit(k', t, test) <==> Hit(k, t, test))
    ensures Unsatisfied(k', l, test) == Unsatisfied(k, l, test)
    decreases |l|
  {
    if l != [] {
      assert l[0] in l && forall t :: t in l[1..] ==> t in l;
      UnsatisfiedSame(k, k', l[1..], test);
    }
  }

  ghost predicate EventsBut(k: Kernel, e: nat) {
    forall i: nat :: i != e ==> EventOK(k, i)
  }

  /** The state in the middle of the traversal: `kept` is behind the walker, `todo` ahead of it. */
  ghost predicate Walking(k: Kernel, e: nat, kept: seq<Tid>, todo: seq<Tid>) {
    && Settled(k) && SemsOK(k) && MuxesOK(k) && QueuesOK(k) && EventsBut(k, e)
    && At(k.lists, EventList(e)) == kept + todo
  }

  lemma WalkStep(k: Kernel, e: nat, kept: seq<Tid>, todo: seq<Tid>)
    requires Walking(k, e, kept, todo) && todo != []
    ensures var t := todo[0];
            && t < k.cfg.tasks && t != k.run && k.tcbs[t].st.pend && k.tcbs[t].call.EventCall?
            && Walking(Wake(k, t), e, kept, todo[1..]) && Leaves(k, Wake(k, t), t)
            && Wake(k, t).tcbs[k.run] == k.tcbs[k.run]
  {
    hide *;
    var t := todo[0];
    WalkHead(k, e, kept, todo);
    WakeOK(k, t);
    WakeGrants(k, t);
    WalkOn(k, Wake(k, t), e, kept, todo);
  }

  /** The task at the walker waits for the event. */
  lemma WalkHead(k: Kernel, e: nat, kept: seq<Tid>, todo: seq<Tid>)
    requires Walking(k, e, kept, todo) && todo != []
    ensures var t := todo[0];
            && SchedOK(k) && k.run < |k.tcbs| && t < k.cfg.tasks && t < |k.tcbs| && t != k.run
            && k.tcbs[t].st.pend && k.tcbs[t].call.EventCall? && !k.tcbs[t].st.unused
  {
    var l := At(k.lists, EventList(e));
    assert l[|kept|] == todo[0] && On(k, EventList(e), todo[0]);
    assert TaskOK(k, todo[0]);
    hide SemsOK, MuxesOK, QueuesOK, EventsBut;
  }

  /** Once that task has been woken, the walker stands at the next one. */
  lemma WalkOn(k: Kernel, k': Kernel, e: nat, kept: seq<Tid>, todo: seq<Tid>)
    requires Walking(k, e, kept, todo) && todo != [] && todo[0] < k.cfg.tasks && k.tcbs[todo[0]].call.EventCall?
    requires SchedOK(k') && Leaves(k, k', todo[0]) && k'.tcbs[todo[0]].call == k.tcbs[todo[0]].call
    requires k'.run == k.run && k'.tcbs[k.run] == k.tcbs[k.run]
    ensures Walking(k', e, kept, todo[1..])
  {
    var l, t := At(k.lists, EventList(e)), todo[0];
    assert l[|kept|] == t;
    DropAt(l, |kept|);
    assert l[..|kept|] + l[|kept| + 1..] == kept + todo[1..];
    CallAlive(k', t);
    WalkObjects(k, k', e, t);
    hide SchedOK, SemsOK, MuxesOK, QueuesOK, EventsBut, NoDup, Drop;
  }

  lemma CallAlive(k: Kernel, t: Tid)
    requires SchedOK(k) && t < k.cfg.tasks && !k.tcbs[t].call.NoCall?
    ensures Shape(k) && !k.tcbs[t].st.unused
  {
    assert TaskOK(k, t);
  }

  lemma WalkObjects(k: Kernel, k': Kernel, e: nat, t: Tid)
    requires Shape(k) && Shape(k') && Leaves(k, k', t) && t < k.cfg.tasks
    requires !k'.tcbs[t].st.unused && k.tcbs[t].call.EventCall? && k'.tcbs[t].call == k.tcbs[t].call
    requires SemsOK(k) && MuxesOK(k) && QueuesOK(k) && EventsBut(k, e)
    ensures SemsOK(k') && MuxesOK(k') && QueuesOK(k') && EventsBut(k', e)
  {
    LeavesSems(k, k', t);
    LeavesMuxes(k, k', t);
    forall q: nat ensures QueueOK(k', q) {
      LeavesQueue(k, k', t, q);
    }
    forall i: nat | i != e ensures EventOK(k', i) {
      assert EventOK(k, i);
      var l := At(k.lists, EventList(i));
      forall x | x in At(k'.lists, EventList(i)) ensures x in l && x != t {
        assert x in Drop(l, t);
      }
    }
  }

  lemma TodoMembers(k: Kernel, e: nat, kept: seq<Tid>, todo: seq<Tid>)
    requires Walking(k, e, kept, todo)
    ensures forall t :: t in todo ==> t < |k.tcbs|
  {
    forall t | t in todo ensures t < |k.tcbs| {
      assert t in kept + todo;
      assert On(k, EventList(e), t);
    }
  }

  lemma WalkHit(k: Kernel, e: nat, kept: seq<Tid>, todo: seq<Tid>, test: (bv32, bv32) -> bool)
    requires Walking(k, e, kept, todo) && todo != []
    ensures forall t :: t in todo ==> t < |k.tcbs|
    ensures todo[0] in todo && (Hit(k, todo[0], test) ==>
              var k1 := Wake(k, todo[0]);
              && Walking(k1, e, kept, todo[1..])
              && (forall t :: t in todo[1..] ==> t < |k1.tcbs|)
              && Unsatisfied(k1, todo[1..], test) == Unsatisfied(k, todo, test))
  {
    TodoMembers(k, e, kept, todo);
    var t, rest := todo[0], todo[1..];
    assert t in todo && forall x :: x in rest ==> x in todo;
    NotInRest(k, e, kept, todo);
    WalkStep(k, e, kept, todo);
    if Hit(k, t, test) {
      UnsatisfiedSame(k, Wake(k, t), rest, test);
      assert [] + Unsatisfied(k, rest, test) == Unsatisfied(k, rest, test);
    }
  }

  lemma WalkMiss(k: Kernel, e: nat, kept: seq<Tid>, todo: seq<Tid>)
    requires Walking(k, e, kept, todo) && todo != []
    ensures Walking(k, e, kept + [todo[0]], todo[1..])
  {
    assert (kept + [todo[0]]) + todo[1..] == kept + todo;
  }

  /** The traversal wakes exactly the satisfied waiters and keeps the order of the rest. */
  lemma {:induction false} WalkOK(k: Kernel, e: nat, kept: seq<Tid>, todo: seq<Tid>, test: (bv32, bv32) -> bool)
    requires Walking(k, e, kept, todo)
    ensures forall t :: t in todo ==> t < |k.tcbs|
    ensures Walking(WakeWhere(k, todo, test).0, e, kept, Unsatisfied(k, todo, test))
    decreases |todo|
  {
    TodoMembers(k, e, kept, todo);
    if todo != [] {
      var t, rest := todo[0], todo[1..];
      assert t in todo;
      if Hit(k, t, test) {
        WalkHit(k, e, kept, todo, test);
        WalkOK(Wake(k, t), e, kept, rest, test);
      } else {
        WalkMiss(k, e, kept, todo);
        WalkOK(k, e, kept + [t], rest, test);
        assert (kept + [t]) + Unsatisfied(k, rest, test) == kept + ([t] + Unsatisfied(k, rest, test));
      }
    }
  }

  lemma {:induction false} WalkFrame(k: Kernel, e: nat, kept: seq<Tid>, todo: seq<Tid>, test: (bv32, bv32) -> bool)
    requires Walking(k, e, kept, todo)
    ensures forall t :: t in todo ==> t < |k.tcbs|
    ensures var (k', hit) := WakeWhere(k, todo, test);
            && k'.run == k.run && k'.now == k.now && k'.cfg == k.cfg && k'.obj == k.obj
               && k'.tcbs[k.run] == k.tcbs[k.run]
            && (hit <==> exists t :: t in todo && Hit(k, t, test))
    decreases |todo|
  {
    TodoMembers(k, e, kept, todo);
    if todo != [] {
      WalkStep(k, e, kept, todo);
      var t, rest := todo[0], todo[1..];
      assert t in todo && forall x :: x in rest ==> x in todo;
      NotInRest(k, e, kept, todo);
      if Hit(k, t, test) {
        WalkFrame(Wake(k, t), e, kept, rest, test);
      } else {
        WalkMiss(k, e, kept, todo);
        WalkFrame(k, e, kept + [t], rest, test);
        assert forall x :: x in todo ==> x == t || x in rest;
      }
    }
  }

  /** What the traversal leaves of a waiter's own record, and when it asks for a reschedule. */
  lemma {:induction false} WalkTouches(k: Kernel, e: nat, kept: seq<Tid>, todo: seq<Tid>, test: (bv32, bv32) -> bool,
                                       x: Tid)
    requires Walking(k, e, kept, todo) && x < |k.tcbs|
    ensures forall t :: t in todo ==> t < |k.tcbs|
    ensures var k' := WakeWhere(k, todo, test).0;
            if x in todo && Hit(k, x, test) then
              !k'.tcbs[x].st.pend && !k'.tcbs[x].st.timeout && k'.tcbs[x].call == k.tcbs[x].call
            else SameCall(k.tcbs[x], k'.tcbs[x])
    decreases |todo|
  {
    TodoMembers(k, e, kept, todo);
    if todo != [] {
      var t, rest := todo[0], todo[1..];
      assert t in todo && forall y :: y in rest ==> y in todo;
      NotInRest(k, e, kept, todo);
      WalkStep(k, e, kept, todo);
      if Hit(k, t, test) {
        WakeGrants(k, t);
        WalkTouches(Wake(k, t), e, kept, rest, test, x);
      } else {
        WalkMiss(k, e, kept, todo);
        WalkTouches(k, e, kept + [t], rest, test, x);
      }
    }
  }

  lemma NotInRest(k: Kernel, e: nat, kept: seq<Tid>, todo: seq<Tid>)
    requires Walking(k, e, kept, todo) && todo != []
    ensures todo[0] !in todo[1..]
  {
    var l := At(k.lists, EventList(e));
    assert NoDup(l);
    forall i | 0 < i < |todo| ensures todo[i] != todo[0] {
      assert l[|kept|] == todo[0] && l[|kept| + i] == todo[i];
    }
  }

  // ---- The event calls ----

  lemma EventSet(k: Kernel, e: nat, x: Event)
    requires Settled(k) && SemsOK(k) && MuxesOK(k) && QueuesOK(k) && EventsBut(k, e) && e < |k.obj.events|
    ensures var k' := SetEvent(k, e, x);
            Settled(k') && SemsOK(k') && MuxesOK(k') && QueuesOK(k') && EventsBut(k', e)
  {
    var k' := SetEvent(k, e, x);
    SameTasksOK(k, k');
    SameQueues(k, k');
    SameMuxes(k, k');
    forall i: nat | i != e ensures EventOK(k', i) {
      assert EventOK(k, i);
    }
  }

  lemma EventStepOK(k: Kernel, e: nat, x: Event, o: Out)
    requires KernelOK(k) && e < |k.obj.events| && o.k == SetEvent(k, e, x) && o.ret != Waiting
    requires EventOK(SetEvent(k, e, x), e)
    ensures CallOK(k, o) && KernelOK(o.k)
  {
    EventSet(k, e, x);
    forall i: nat ensures EventOK(o.k, i) {
    }
    Goes(k, o);
  }

  /** A waiter's condition stays false when bits are only taken away. */
  lemma FewerBitsOK(k: Kernel, e: nat, x: Event, keep: bv32)
    requires EventOK(k, e) && e < |k.obj.events| && x == k.obj.events[e].(bits := k.obj.events[e].bits & keep)
    ensures EventOK(SetEvent(k, e, x), e)
  {
    forall t | t in At(k.lists, EventList(e)) ensures Match(x.bits, k.tcbs[t].eventMask, k.tcbs[t].eventMode) == 0 {
      ClearingSatisfiesNobody(k.obj.events[e].bits, keep, k.tcbs[t].eventMask, k.tcbs[t].eventMode);
    }
  }

  lemma PollOnlyClears(bits: bv32, mask: bv32, mode: bv32) returns (keep: bv32)
    ensures Poll(bits, mask, mode).0 == bits & keep
  {
    var got := Match(bits, mask, mode);
    keep := if got != 0 && mode & MODE_CLR != 0 then !got else 0xFFFF_FFFF;
  }

  lemma ClearSomeOK(k: Kernel, e: nat, bits: bv32, keep: bv32, o: Out)
    requires KernelOK(k) && e < |k.obj.events| && bits == k.obj.events[e].bits & keep && o.ret != Waiting
    requires o.k == SetEvent(k, e, k.obj.events[e].(bits := bits))
    ensures CallOK(k, o) && KernelOK(o.k)
  {
    assert EventOK(k, e);
    FewerBitsOK(k, e, o.k.obj.events[e], keep);
    EventStepOK(k, e, o.k.obj.events[e], o);
  }

  lemma PollNowOK(k: Kernel, e: nat, mask: bv32, mode: bv32)
    requires KernelOK(k) && e < |k.obj.events|
    ensures CallOK(k, PollNow(k, e, mask, mode)) && KernelOK(PollNow(k, e, mask, mode).k)
  {
    var bits := k.obj.events[e].bits;
    var keep := PollOnlyClears(bits, mask, mode);
    ClearSomeOK(k, e, Poll(bits, mask, mode).0, keep, PollNow(k, e, mask, mode));
  }

  lemma PollZero(k: Kernel, e: nat, mask: bv32, mode: bv32)
    requires e < |k.obj.events| && Match(k.obj.events[e].bits, mask, mode) == 0
    ensures PollNow(k, e, mask, mode) == Out(k, Bits(0), false)
  {
    var x := k.obj.events[e];
    assert k.obj.events[e := x] == k.obj.events;
  }

  /** The running task records what it is about to wait for. */
  lemma NoteOK(k: Kernel, mask: bv32, mode: bv32)
    requires KernelOK(k)
    ensures KernelOK(SetTcb(k, k.run, k.tcbs[k.run].(eventMask := mask, eventMode := mode)))
  {
    var t := k.run;
    var c := k.tcbs[t].(eventMask := mask, eventMode := mode);
    var k' := SetTcb(k, t, c);
    assert TaskOK(k, t);
    SetTcbEffect(k, t, c);
    assert Placed(k', t);
    OneTaskStep(k, k', t);
    OffWaitLists(k, t);
    LeavesObjects(k, k', t);
  }

  lemma ReadOK(k: Kernel, e: nat, mask: bv32, mode: bv32, timeout: nat, inInt: bool)
    requires KernelOK(k) && (timeout > 0 && !inInt ==> k.run != k.cfg.idle && k.tcbs[k.run].call.NoCall?)
    ensures CallOK(k, Read(k, e, mask, mode, timeout, inInt))
  {
    var o := Read(k, e, mask, mode, timeout, inInt);
    if e < |k.obj.events| && k.obj.events[e].ready && mask != 0 && mask & ERROR_BIT == 0 && ModeOK(mode) && !inInt {
      PollNowOK(k, e, mask, mode);
      var got := Match(k.obj.events[e].bits, mask, mode);
      if got == 0 && timeout != 0 {
        PollZero(k, e, mask, mode);
        if k.lock == 0 {
          NoteOK(k, mask, mode);
          var k1 := SetTcb(k, k.run, k.tcbs[k.run].(eventMask := mask, eventMode := mode));
          WaitCallOK(k1, EventCall(e, mask, mode), timeout, o);
        } else {
          Unchanged(k, o);
        }
      }
    } else {
      Unchanged(k, o);
    }
  }

  lemma EventMembers(k: Kernel, e: nat)
    requires SchedOK(k)
    ensures Members(k, EventList(e))
  {
    forall t | t in At(k.lists, EventList(e)) ensures t < |k.tcbs| {
      assert On(k, EventList(e), t);
    }
  }

  /** The state a write's traversal starts from. */
  function Written(k: Kernel, e: nat, events: bv32): Kernel
    requires e < |k.obj.events|
  {
    SetEvent(k, e, k.obj.events[e].(bits := k.obj.events[e].bits | events))
  }

  function WriteTest(k: Kernel, e: nat, events: bv32): (bv32, bv32) -> bool
    requires e < |k.obj.events|
  {
    var bits := k.obj.events[e].bits | events;
    (mask, mode) => Satisfied(mask, mode, events, bits)
  }

  /** An accepted write leaves exactly the waiters whose condition is still false, in their order. */
  lemma WriteLeavesUnsatisfied(k: Kernel, e: nat, events: bv32)
    requires KernelOK(k) && e < |k.obj.events| && k.obj.events[e].ready && events & ERROR_BIT == 0
    ensures Members(k, EventList(e))
    ensures var k' := Write(k, e, events).k;
            && At(k'.lists, EventList(e)) == Unsatisfied(k, At(k.lists, EventList(e)), WriteTest(k, e, events))
            && Walking(k', e, [], At(k'.lists, EventList(e)))
            && k'.run == k.run && k'.now == k.now && k'.cfg == k.cfg && k'.tcbs[k.run] == k.tcbs[k.run]
            && k'.obj == Written(k, e, events).obj && Write(k, e, events).ret == Ok
  {
    EventMembers(k, e);
    var l := At(k.lists, EventList(e));
    var k1 := Written(k, e, events);
    EventSet(k, e, k1.obj.events[e]);
    assert [] + l == l;
    WalkOK(k1, e, [], l, WriteTest(k, e, events));
    WalkFrame(k1, e, [], l, WriteTest(k, e, events));
    UnsatisfiedSame(k, k1, l, WriteTest(k, e, events));
    WriteIsWalk(k, e, events);
    var r := Unsatisfied(k, l, WriteTest(k, e, events));
    assert [] + r == r;
  }

  lemma WriteIsWalk(k: Kernel, e: nat, events: bv32)
    requires e < |k.obj.events| && k.obj.events[e].ready && events & ERROR_BIT == 0 && Members(k, EventList(e))
    ensures Write(k, e, events).k == WakeWhere(Written(k, e, events), At(k.lists, EventList(e)),
                                               WriteTest(k, e, events)).0
    ensures Write(k, e, events).ret == Ok
  {
  }

  lemma WaiterUnmet(k: Kernel, e: nat, t: Tid)
    requires EventOK(k, e) && t in At(k.lists, EventList(e)) && t < |k.tcbs| && e < |k.obj.events|
    ensures ModeOK(k.tcbs[t].eventMode) && k.tcbs[t].eventMask != 0
    ensures Match(k.obj.events[e].bits, k.tcbs[t].eventMask, k.tcbs[t].eventMode) == 0
  {
  }

  lemma PassedOver(k: Kernel, e: nat, events: bv32, t: Tid)
    requires EventOK(k, e) && t in At(k.lists, EventList(e)) && e < |k.obj.events| && t < |k.tcbs|
    ensures Hit(k, t, WriteTest(k, e, events)) <==>
              Match(k.obj.events[e].bits | events, k.tcbs[t].eventMask, k.tcbs[t].eventMode) != 0
  {
    hide *;
    var bits := k.obj.events[e].bits | events;
    WaiterUnmet(k, e, t);
    AddsIs(k.obj.events[e].bits, events);
    TestIsMatch(k.tcbs[t].eventMask, k.tcbs[t].eventMode, k, e, events, bits);
    HitIs(k, t, WriteTest(k, e, events));
  }

  lemma AddsIs(before: bv32, written: bv32)
    ensures Adds(before, written, before | written)
  {
  }

  lemma HitIs(k: Kernel, t: Tid, test: (bv32, bv32) -> bool)
    requires t < |k.tcbs|
    ensures Hit(k, t, test) == test(k.tcbs[t].eventMask, k.tcbs[t].eventMode)
  {
  }

  lemma TestApplies(mask: bv32, mode: bv32, k: Kernel, e: nat, events: bv32)
    requires e < |k.obj.events|
    ensures WriteTest(k, e, events)(mask, mode) == Satisfied(mask, mode, events, k.obj.events[e].bits | events)
  {
    hide Satisfied;
  }

  lemma TestReads(mask: bv32, mode: bv32, k: Kernel, e: nat, events: bv32, bits: bv32)
    requires e < |k.obj.events| && Adds(k.obj.events[e].bits, events, bits) == true
    ensures WriteTest(k, e, events)(mask, mode) == Satisfied(mask, mode, events, bits)
  {
    hide Satisfied, WriteTest;
    TestApplies(mask, mode, k, e, events);
  }

  lemma TestIsMatch(mask: bv32, mode: bv32, k: Kernel, e: nat, events: bv32, bits: bv32)
    requires e < |k.obj.events| && Adds(k.obj.events[e].bits, events, bits) == true
    requires ModeOK(mode) == true && mask != 0 && Match(k.obj.events[e].bits, mask, mode) == 0
    ensures WriteTest(k, e, events)(mask, mode) <==> Match(bits, mask, mode) != 0
  {
    hide *;
    TestReads(mask, mode, k, e, events, bits);
    PassedOverUnsatisfied(mask, mode, k.obj.events[e].bits, events, bits);
  }

  lemma WrittenOK(k: Kernel, k': Kernel, e: nat, events: bv32)
    requires EventOK(k, e) && e < |k.obj.events| && Members(k, EventList(e)) && |k'.tcbs| == |k.tcbs|
    requires k'.obj == Written(k, e, events).obj && k.obj.events[e].ready
    requires At(k'.lists, EventList(e)) == Unsatisfied(k, At(k.lists, EventList(e)), WriteTest(k, e, events))
    requires forall t :: t in At(k'.lists, EventList(e)) ==> t < |k.tcbs| && SameCall(k.tcbs[t], k'.tcbs[t])
    ensures EventOK(k', e)
  {
    forall t | t in At(k'.lists, EventList(e))
      ensures t in At(k.lists, EventList(e))
              && Match(k'.obj.events[e].bits, k.tcbs[t].eventMask, k.tcbs[t].eventMode) == 0
    {
      assert !Hit(k, t, WriteTest(k, e, events));
      PassedOver(k, e, events, t);
    }
  }

  lemma WriteOK(k: Kernel, e: nat, events: bv32)
    requires KernelOK(k)
    ensures Members(k, EventList(e))
    ensures CallOK(k, Write(k, e, events))
  {
    EventMembers(k, e);
    var o := Write(k, e, events);
    if e < |k.obj.events| && k.obj.events[e].ready && events & ERROR_BIT == 0 {
      WriteLeavesUnsatisfied(k, e, events);
      WriteSatisfies(k, e, events);
      hide Write, KernelOK;
      WalkedOK(k, e, events, o);
    } else {
      Unchanged(k, o);
    }
  }

  /** Nobody left on the list waits for bits that are there. */
  lemma WriteSatisfies(k: Kernel, e: nat, events: bv32)
    requires KernelOK(k) && e < |k.obj.events| && k.obj.events[e].ready && events & ERROR_BIT == 0
    ensures Members(k, EventList(e)) && EventOK(Write(k, e, events).k, e)
  {
    EventMembers(k, e);
    var o := Write(k, e, events);
    WriteLeavesUnsatisfied(k, e, events);
    WriteIsWalk(k, e, events);
    var l := At(k.lists, EventList(e));
    var k1 := Written(k, e, events);
    EventSet(k, e, k1.obj.events[e]);
    assert [] + l == l;
    hide Write;
    forall t | t in At(o.k.lists, EventList(e)) ensures t < |k.tcbs| && SameCall(k.tcbs[t], o.k.tcbs[t]) {
      assert t in l && !Hit(k, t, WriteTest(k, e, events));
      assert !Hit(k1, t, WriteTest(k, e, events));
      WalkTouches(k1, e, [], l, WriteTest(k, e, events), t);
    }
    assert EventOK(k, e);
    WrittenOK(k, o.k, e, events);
  }

  lemma WalkedOK(k: Kernel, e: nat, events: bv32, o: Out)
    requires KernelOK(k) && o.ret == Ok && Walking(o.k, e, [], At(o.k.lists, EventList(e))) && EventOK(o.k, e)
    requires o.k.run == k.run && o.k.now == k.now && o.k.cfg == k.cfg && k.run < |k.tcbs| == |o.k.tcbs|
    requires o.k.tcbs[k.run] == k.tcbs[k.run]
    ensures CallOK(k, o)
  {
    forall i: nat ensures EventOK(o.k, i) {
    }
    Goes(k, o);
    hide SemsOK, MuxesOK, QueuesOK;
  }

  /**
   * A write wakes exactly the waiters whose condition has become true, and the others keep waiting in the same
   * order: no wake-up is lost although OR waiters are compared with the new bits only.
   */
  lemma WriteWakesExactly(k: Kernel, e: nat, events: bv32, t: Tid)
    requires KernelOK(k) && e < |k.obj.events| && k.obj.events[e].ready && events & ERROR_BIT == 0
    requires On(k, EventList(e), t)
    ensures Members(k, EventList(e))
    ensures t < |k.tcbs|
    ensures var k' := Write(k, e, events).k;
            && |k'.tcbs| == |k.tcbs|
            && (On(k', EventList(e), t) <==>
                  Match(k.obj.events[e].bits | events, k.tcbs[t].eventMask, k.tcbs[t].eventMode) == 0)
            && (!On(k', EventList(e), t) ==> !k'.tcbs[t].st.pend && !k'.tcbs[t].st.timeout)
  {
    EventMembers(k, e);
    WriteLeavesUnsatisfied(k, e, events);
    WriteIsWalk(k, e, events);
    assert EventOK(k, e);
    PassedOver(k, e, events, t);
    var l := At(k.lists, EventList(e));
    var k1 := Written(k, e, events);
    EventSet(k, e, k1.obj.events[e]);
    assert [] + l == l;
    assert Hit(k1, t, WriteTest(k, e, events)) <==> Hit(k, t, WriteTest(k, e, events));
    WalkTouches(k1, e, [], l, WriteTest(k, e, events), t);
  }

  lemma ClearOK(k: Kernel, e: nat, events: bv32)
    requires KernelOK(k)
    ensures CallOK(k, Clear(k, e, events))
  {
    var o := Clear(k, e, events);
    if e < |k.obj.events| {
      ClearSomeOK(k, e, o.k.obj.events[e].bits, events, o);
    } else {
      Unchanged(k, o);
    }
  }

  lemma InitKept(k: Kernel, e: nat)
    requires SchedOK(k) && ObjectsOK(k) && At(k.lists, EventList(e)) == []
    ensures Kept(k, Init(k, e))
  {
    var o := Init(k, e);
    if e < |k.obj.events| {
      SameTasksOK(k, o.k);
      SameQueues(k, o.k);
      SameMuxes(k, o.k);
      forall i: nat ensures EventOK(o.k, i) {
        assert EventOK(k, i);
      }
    }
  }

  lemma InitOK(k: Kernel, e: nat)
    requires KernelOK(k) && At(k.lists, EventList(e)) == []
    ensures CallOK(k, Init(k, e))
  {
    var o := Init(k, e);
    if e < |k.obj.events| {
      EventStepOK(k, e, o.k.obj.events[e], o);
    } else {
      Unchanged(k, o);
    }
  }

  lemma DestroyOK(k: Kernel, e: nat)
    requires KernelOK(k)
    ensures CallOK(k, Destroy(k, e))
  {
    var o := Destroy(k, e);
    if o.ret == Ok {
      EventStepOK(k, e, o.k.obj.events[e], o);
    } else {
      Unchanged(k, o);
    }
  }
}
