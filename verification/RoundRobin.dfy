/** LOS_TaskYield: the tasks of the most urgent priority take turns. */
module RoundRobin {
  import opened Sequences
  import opened Deadlines
  import opened KernelState
  import opened Sched
  import opened SchedProofs
  import opened TaskProofs
  import opened Machine
  import opened MachineProofs
  import Task

  /** The running task followed by the ready list of its priority. */
  function Turn(k: Kernel): seq<Tid>
    requires k.run < |k.tcbs|
  {
    [k.run] + At(k.lists, ReadyList(k.tcbs[k.run].prio))
  }

  function Rotate(s: seq<Tid>, n: nat): seq<Tid>
    requires n <= |s|
  {
    s[n..] + s[..n]
  }

  /** Nothing more urgent than the running task is ready, and it is not the idle task. */
  ghost predicate OnTop(k: Kernel)
    requires k.run < |k.tcbs|
  {
    && k.run != k.cfg.idle
    && forall p :: 0 <= p < k.tcbs[k.run].prio ==> At(k.lists, ReadyList(p)) == []
  }

  /** The state LOS_TaskYield switches from: the slice is used up. */
  function Spent(k: Kernel, now: nat): Kernel
    requires k.run < |k.tcbs|
  {
    ChargeSlice(Task.Yield(k).k, now)
  }

  lemma YieldParks(k: Kernel, now: nat)
    requires KernelOK(k) && k.now <= now && k.run != k.cfg.idle && 0 <= k.cfg.sliceMin
    ensures var k1 := Park(Spent(k, now));
            && k1.cfg == k.cfg && |k1.tcbs| == |k.tcbs| && k1.run == k.run
            && k1.lists == PushBack(k.lists, ReadyList(k.tcbs[k.run].prio), k.run)
            && (forall t :: 0 <= t < |k.tcbs| ==> k1.tcbs[t].prio == k.tcbs[t].prio)
            && (forall t :: 0 <= t < |k.tcbs| && t != k.run ==> k1.tcbs[t].st == k.tcbs[t].st)
            && k1.tcbs[k.run].st.ready
  {
    assert TaskOK(k, k.run);
  }

  /** Who is elected after a yield: the head of the list that the yielding task has joined. */
  lemma YieldElects(k: Kernel, now: nat)
    requires KernelOK(k) && k.now <= now && 0 <= k.cfg.sliceMin && OnTop(k)
    ensures var k1 := Park(Spent(k, now));
            var p := k.tcbs[k.run].prio;
            var s := At(k.lists, ReadyList(p)) + [k.run];
            && At(k1.lists, ReadyList(p)) == s && NoDup(s)
            && (forall q :: 0 <= q < p ==> At(k1.lists, ReadyList(q)) == [])
            && Top(k1) == s[0] && s[0] < k.cfg.tasks && s[0] != k.cfg.idle
            && k1.tcbs[s[0]].st.ready && k1.tcbs[s[0]].prio == p
  {
    YieldParks(k, now);
    assert TaskOK(k, k.run);
    var k1 := Park(Spent(k, now));
    var p := k.tcbs[k.run].prio;
    var l := At(k.lists, ReadyList(p));
    assert !On(k, ReadyList(p), k.run);
    hide KernelOK;
    TopFromIs(k1, 0, p);
    if l != [] {
      assert On(k, ReadyList(p), l[0]);
      OnReadyList(k, p, l[0]);
    }
  }

  lemma {:induction false} DropHead(s: seq<Tid>)
    requires NoDup(s) && s != []
    ensures Drop(s, s[0]) == s[1..]
  {
    DropAt(s, 0);
    assert s[..0] + s[1..] == s[1..];
  }

  /** One yield moves the turn on by one. */
  lemma YieldRotates(k: Kernel, now: nat)
    requires KernelOK(k) && k.now <= now && 0 <= k.cfg.sliceMin && OnTop(k)
    ensures Top(Park(Spent(k, now))) < |k.tcbs|
    ensures var k' := Switch(Task.Yield(k).k, now);
            && |k'.tcbs| == |k.tcbs| && k'.run < |k'.tcbs| && OnTop(k')
            && Turn(k') == Rotate(Turn(k), 1)
  {
    YieldElects(k, now);
    YieldParks(k, now);
    var k1 := Park(Spent(k, now));
    var p := k.tcbs[k.run].prio;
    var s := At(k.lists, ReadyList(p)) + [k.run];
    assert Switch(Task.Yield(k).k, now) == Dispatch(k1, s[0]);
    hide Park, Spent, KernelOK;
    DropHead(s);
    Dispatched(k1, s[0]);
    assert Turn(k)[1..] == At(k.lists, ReadyList(p));
  }

  lemma Dispatched(k: Kernel, n: Tid)
    requires k.run < |k.tcbs| && n < |k.tcbs| && k.tcbs[n].st.ready && n != k.cfg.idle
    ensures var k' := Dispatch(k, n);
            && k'.run == n && k'.cfg == k.cfg && |k'.tcbs| == |k.tcbs| && k'.lists == Unlink(k.lists, n)
            && k'.tcbs[n].prio == k.tcbs[n].prio
  {
  }

  // ---- Runs of yields ----

  ghost predicate OnlyYields(steps: seq<Step>) {
    forall i :: 0 <= i < |steps| ==> steps[i].Call? && steps[i].op.TaskYield?
  }

  lemma YieldStep(k: Kernel, s: Step)
    requires KernelOK(k) && Legal(k, s) && s.Call? && s.op.TaskYield?
    requires k.lock == 0 && k.run < |k.tcbs| && OnTop(k) && 0 <= k.cfg.sliceMin
    ensures var k' := Next(k, s);
            && k'.lock == 0 && k'.cfg == k.cfg && Turned(k, k', 1)
            && k'.run < |k'.tcbs| && OnTop(k') && |Turn(k')| == |Turn(k)|
  {
    assert k.now <= s.now;
    hide KernelOK, Legal, Next, OnTop, Park, Spent, Task.Yield, Switch, Turn;
    YieldRotates(k, s.now);
    YieldIs(k, s);
    var k' := Next(k, s);
    OneTurn(k, k');
  }

  lemma OneTurn(k: Kernel, k': Kernel)
    requires k.run < |k.tcbs| && k'.run < |k'.tcbs| && OnTop(k')
    requires Turn(k') == Rotate(Turn(k), 1)
    ensures Turned(k, k', 1) && |Turn(k')| == |Turn(k)|
  {
    hide OnTop;
    assert k'.run == Turn(k')[0];
    if |Turn(k)| == 1 {
      assert Rotate(Turn(k), 1) == Rotate(Turn(k), 0);
    } else {
      assert 1 % |Turn(k)| == 1;
    }
  }

  lemma YieldDo(k: Kernel)
    requires Defined(k)
    ensures Do(k, TaskYield, false) == Task.Yield(k)
  {
    hide Defined;
  }

  lemma YieldAsks(k: Kernel)
    requires k.run < |k.tcbs|
    ensures Task.Yield(k).sched && Task.Yield(k).k.lock == k.lock
  {
  }

  lemma SwitchLock(k: Kernel, now: nat)
    requires Shape(k) && Top(Park(ChargeSlice(k, now))) < |k.tcbs|
    ensures Switch(k, now).lock == k.lock
  {
    hide Top, Insert;
  }

  lemma YieldIs(k: Kernel, s: Step)
    requires KernelOK(k) && Legal(k, s) && s.Call? && s.op.TaskYield? && k.lock == 0
    requires Top(Park(Spent(k, s.now))) < |k.tcbs|
    ensures Next(k, s) == Switch(Task.Yield(k).k, s.now) && Next(k, s).lock == 0
  {
    hide *;
    RunInRange(k);
    NextCallIs(k, s.op, s.now);
    YieldDo(k);
    YieldAsks(k);
    SwitchLock(Task.Yield(k).k, s.now);
  }

  lemma NextRest(n: nat, c: nat)
    requires 0 < c
    ensures (n + 1) % c == if n % c + 1 == c then 0 else n % c + 1
  {
    var q, r := n / c, n % c;
    assert n == q * c + r;
    if r + 1 == c {
      assert n + 1 == (q + 1) * c;
      ModUnique(n + 1, q + 1, c, 0);
    } else {
      ModUnique(n + 1, q, c, r + 1);
    }
  }

  lemma RotateOn(s: seq<Tid>, n: nat)
    requires s != []
    ensures Rotate(Rotate(s, 1 % |s|), n % |s|) == Rotate(s, (n + 1) % |s|)
  {
    var c, r := |s|, n % |s|;
    NextRest(n, c);
    if c == 1 {
      assert r == 0 && 1 % c == 0 && (n + 1) % c == 0;
    } else {
      assert 1 % c == 1;
      assert Rotate(Rotate(s, 1), r) == Rotate(s, if r + 1 == c then 0 else r + 1);
    }
  }

  /** After `n` yields: the turn has moved on by `n` places, around as often as its length goes into `n`. */
  ghost predicate Turned(k: Kernel, k': Kernel, n: nat)
    requires k.run < |k.tcbs|
  {
    && k'.run < |k'.tcbs| && OnTop(k') && k'.run == Turn(k)[n % |Turn(k)|]
    && Turn(k') == Rotate(Turn(k), n % |Turn(k)|)
  }

  lemma TurnedOn(k: Kernel, k1: Kernel, k': Kernel, n: nat)
    requires k.run < |k.tcbs| && Turned(k, k1, 1) && Turned(k1, k', n)
    ensures Turned(k, k', n + 1)
  {
    hide OnTop;
    RotateOn(Turn(k), n);
    assert Turn(k')[0] == k'.run;
  }

  /**
   * With only yields, control visits the tasks of the turn in list order, around and around: after `n` yields the task
   * runs that stands at place `n` modulo the number of tasks in the turn, and the turn is rotated by as much. So after
   * each full round the running task and the ready list are as at the start.
   */
  lemma {:induction false} EveryoneGetsATurn(k: Kernel, steps: seq<Step>)
    requires KernelOK(k) && LegalRun(k, steps) && OnlyYields(steps)
    requires k.lock == 0 && OnTop(k) && 0 <= k.cfg.sliceMin
    ensures Turned(k, Run(k, steps), |steps|)
    decreases |steps|
  {
    hide *;
    RunInRange(k);
    if steps == [] {
      NoTurn(k);
      RunNone(k);
    } else {
      RunFirst(k, steps);
      FewerYields(steps);
      YieldStep(k, steps[0]);
      var k1 := Next(k, steps[0]);
      EveryoneGetsATurn(k1, steps[1..]);
      TurnedOn(k, k1, Run(k, steps), |steps| - 1);
    }
  }

  lemma FewerYields(steps: seq<Step>)
    requires OnlyYields(steps) && steps != []
    ensures OnlyYields(steps[1..]) && steps[0].Call? && steps[0].op.TaskYield?
  {
  }

  lemma NoTurn(k: Kernel)
    requires k.run < |k.tcbs| && OnTop(k)
    ensures Turned(k, k, 0)
  {
    assert Rotate(Turn(k), 0) == Turn(k);
    assert 0 % |Turn(k)| == 0;
  }

  lemma RunNone(k: Kernel)
    requires KernelOK(k)
    ensures LegalRun(k, []) && Run(k, []) == k
  {
    hide KernelOK;
  }

  lemma RunFirst(k: Kernel, steps: seq<Step>)
    requires KernelOK(k) && LegalRun(k, steps) && steps != []
    ensures Legal(k, steps[0]) && LegalRun(Next(k, steps[0]), steps[1..])
    ensures Run(k, steps) == Run(Next(k, steps[0]), steps[1..])
  {
  }
}
