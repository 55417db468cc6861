/** Priority inheritance over whole runs: when a task that holds no mutex is at its base priority. */
module MuxPriority {
  import opened Sequences
  import opened KernelState
  import opened Invariants
  import opened TaskProofs
  import opened ObjectProofs
  import opened Machine
  import opened MachineProofs
  import opened MuxHistory
  import opened MuxStacks
  import opened Boot
  import Mutex

  // ---- At base exactly when the last release returns to it ----

  /** Every task that holds nothing has its base priority. */
  ghost predicate AtBase(k: Kernel, h: Hist) {
    && Holds(k, h)
    && forall t :: 0 <= t < k.cfg.tasks && !k.tcbs[t].st.unused && h.held[t] == [] ==> k.tcbs[t].prio == h.base[t]
  }

  /** A release that leaves its owner without any mutex is of one that was taken at the base priority. */
  ghost predicate Returns(k: Kernel, op: Op, h: Hist)
    requires Sized(k, h)
  {
    FinalRelease(k, op) && k.run < k.cfg.tasks && Drop(h.held[k.run], op.mux) == [] ==>
      Saved(k, op.mux) == h.base[k.run]
  }

  lemma BaseStep(k: Kernel, op: Op, k': Kernel, h: Hist, h': Hist)
    requires Moved(k, op, k', h, h') && AtBase(k, h)
    ensures Sized(k, h)
    ensures AtBase(k', h') <==> Returns(k, op, h)
  {
    hide Drop, NoDup, Owns, SavedSame, FinalRelease;
    forall t | 0 <= t < k.cfg.tasks && !k'.tcbs[t].st.unused ensures Moves(k, op, k', h, h', t) {
    }
  }

  ghost predicate RunReturns(k: Kernel, steps: seq<Step>, h: Hist)
    requires KernelOK(k) && LegalRun(k, steps) && Holds(k, h)
    decreases |steps|
  {
    HoldsSized(k, h);
    steps == [] ||
    (Returns(k, OpOrNone(steps[0]), h)
     && (StepHolds(k, steps[0], h); RunReturns(Next(k, steps[0]), steps[1..], StepRecord(k, steps[0], h))))
  }

  lemma StepHolds(k: Kernel, step: Step, h: Hist)
    requires KernelOK(k) && Legal(k, step) && Holds(k, h)
    ensures Holds(Next(k, step), StepRecord(k, step, h))
  {
    hide Next, StepRecord, Legal;
    StepMoves(k, step, h);
  }

  ghost predicate AlwaysAtBase(k: Kernel, steps: seq<Step>, h: Hist)
    requires KernelOK(k) && LegalRun(k, steps)
    decreases |steps|
  {
    AtBase(k, h) && (steps == [] || AlwaysAtBase(Next(k, steps[0]), steps[1..], StepRecord(k, steps[0], h)))
  }

  /**
   * Over every run, whatever is boosted, handed over, timed out or set: the tasks that hold nothing are at their base
   * priority in all its states exactly when each release that leaves its owner without a mutex is of one that was
   * taken at the base priority.
   */
  lemma {:induction false} AtBaseExactly(k: Kernel, steps: seq<Step>, h: Hist)
    requires KernelOK(k) && LegalRun(k, steps) && AtBase(k, h)
    ensures AlwaysAtBase(k, steps, h) <==> RunReturns(k, steps, h)
    decreases |steps|
  {
    if steps != [] {
      StepMoves(k, steps[0], h);
      hide Next, StepRecord, AtBase, Holds, Moved, Returns, Legal;
      var k', h' := Next(k, steps[0]), StepRecord(k, steps[0], h);
      BaseStep(k, OpOrNone(steps[0]), k', h, h');
      if AtBase(k', h') {
        AtBaseExactly(k', steps[1..], h');
      }
    }
  }

  lemma {:induction false} AlwaysAtEnd(k: Kernel, steps: seq<Step>, h: Hist)
    requires KernelOK(k) && LegalRun(k, steps) && AlwaysAtBase(k, steps, h)
    ensures AtBase(Run(k, steps), RunRecord(k, steps, h))
    decreases |steps|
  {
    if steps != [] {
      hide Next, StepRecord, AtBase, Legal;
      AlwaysAtEnd(Next(k, steps[0]), steps[1..], StepRecord(k, steps[0], h));
    }
  }

  lemma OwnsNothing(k: Kernel, h: Hist, t: Tid)
    requires Holds(k, h) && t < k.cfg.tasks && forall m: nat :: !Owns(k, t, m)
    ensures h.held[t] == []
  {
    forall m: nat ensures m !in h.held[t] {
      assert m in h.held[t] <==> Owns(k, t, m);
    }
    NoElements(h.held[t]);
  }

  /** So a task that owns no mutex runs at its base priority again. */
  lemma BackAtBase(k: Kernel, steps: seq<Step>, h: Hist, t: Tid)
    requires KernelOK(k) && LegalRun(k, steps) && AtBase(k, h) && RunReturns(k, steps, h) && t < k.cfg.tasks
    requires !Run(k, steps).tcbs[t].st.unused && forall m: nat :: !Owns(Run(k, steps), t, m)
    ensures t < |RunRecord(k, steps, h).base| && Run(k, steps).tcbs[t].prio == RunRecord(k, steps, h).base[t]
  {
    hide RunRecord, Run, LegalRun, RunReturns, Owns, NoDup;
    AtBaseExactly(k, steps, h);
    AlwaysAtEnd(k, steps, h);
    OwnsNothing(Run(k, steps), RunRecord(k, steps, h), t);
  }

  // ---- Disciplines that callers can follow ----

  /** The mutex taken first, if any is held, saved the base priority. */
  ghost predicate Grounded(k: Kernel, h: Hist) {
    && Holds(k, h)
    && forall t :: 0 <= t < k.cfg.tasks && !k.tcbs[t].st.unused ==>
         h.base[t] == if h.held[t] == [] then k.tcbs[t].prio else Saved(k, h.held[t][0])
  }

  /** No priority is set on a holder. */
  predicate SparesHolders(k: Kernel, op: Op, h: Hist) {
    op.TaskPriSet? && op.t < |h.held| ==> h.held[op.t] == []
  }

  /** The mutex taken first is given back last, and no priority is set on a holder. */
  ghost predicate FirstLast(k: Kernel, op: Op, h: Hist)
    requires Sized(k, h)
  {
    && (FinalRelease(k, op) && k.run < k.cfg.tasks && h.held[k.run] != [] && h.held[k.run][0] == op.mux ==>
          |h.held[k.run]| == 1)
    && SparesHolders(k, op, h)
  }

  lemma DropKeepsFirst(s: seq<nat>, m: nat)
    requires NoDup(s) && m in s && (s[0] == m ==> |s| == 1)
    ensures if s == [m] then Drop(s, m) == [] else Drop(s, m) != [] && Drop(s, m)[0] == s[0] != m
  {
    if s[0] == m {
      assert s == [m];
      assert Drop([m], m) == Drop([], m);
    } else {
      assert s[0] in Drop(s, m);
    }
  }

  lemma GroundedStep(k: Kernel, op: Op, k': Kernel, h: Hist, h': Hist)
    requires Moved(k, op, k', h, h') && Grounded(k, h) && Sized(k, h) && FirstLast(k, op, h)
    ensures Grounded(k', h') && Returns(k, op, h)
  {
    hide Drop, NoDup, Owns, Saved;
    forall t | 0 <= t < k.cfg.tasks && !k'.tcbs[t].st.unused
      ensures h'.base[t] == if h'.held[t] == [] then k'.tcbs[t].prio else Saved(k', h'.held[t][0])
    {
      assert Moves(k, op, k', h, h', t);
      assert NoDup(h.held[t]);
      if FinalRelease(k, op) && t == k.run {
        DropKeepsFirst(h.held[t], op.mux);
      }
    }
    if FinalRelease(k, op) && k.run < k.cfg.tasks {
      DropKeepsFirst(h.held[k.run], op.mux);
    }
  }

  ghost predicate RunFirstLast(k: Kernel, steps: seq<Step>, h: Hist)
    requires KernelOK(k) && LegalRun(k, steps) && Holds(k, h)
    decreases |steps|
  {
    HoldsSized(k, h);
    steps == [] ||
    (FirstLast(k, OpOrNone(steps[0]), h)
     && (StepHolds(k, steps[0], h); RunFirstLast(Next(k, steps[0]), steps[1..], StepRecord(k, steps[0], h))))
  }

  /** Giving back last what was taken first is enough, whatever the order of the mutexes in between. */
  lemma {:induction false} FirstLastReturns(k: Kernel, steps: seq<Step>, h: Hist)
    requires KernelOK(k) && LegalRun(k, steps) && Grounded(k, h) && RunFirstLast(k, steps, h)
    ensures RunReturns(k, steps, h) && AtBase(k, h)
    decreases |steps|
  {
    if steps != [] {
      StepMoves(k, steps[0], h);
      hide Next, StepRecord, Holds, Moved, Returns, FirstLast, Legal;
      HoldsSized(k, h);
      GroundedStep(k, OpOrNone(steps[0]), Next(k, steps[0]), h, StepRecord(k, steps[0], h));
      FirstLastReturns(Next(k, steps[0]), steps[1..], StepRecord(k, steps[0], h));
    }
  }

  // ---- The order of the saved priorities ----

  /** From the base priority over those saved by the mutexes held, down to the current one: never less urgent. */
  ghost predicate Descends(k: Kernel, base: nat, held: seq<nat>, prio: nat) {
    if held == [] then prio == base
    else
      && Saved(k, held[0]) == base
      && (forall i, j :: 0 <= i < j < |held| ==> Saved(k, held[j]) <= Saved(k, held[i]))
      && prio <= Saved(k, held[|held| - 1])
  }

  ghost predicate Tracks(k: Kernel, h: Hist) {
    && Holds(k, h)
    && forall t :: 0 <= t < k.cfg.tasks && !k.tcbs[t].st.unused ==>
         Descends(k, h.base[t], h.held[t], k.tcbs[t].prio)
  }

  /** What is given back saved the same priority as what was taken last. */
  ghost predicate Even(k: Kernel, op: Op, h: Hist)
    requires Sized(k, h)
  {
    FinalRelease(k, op) && k.run < k.cfg.tasks && h.held[k.run] != [] ==>
      Saved(k, op.mux) == Saved(k, h.held[k.run][|h.held[k.run]| - 1])
  }

  lemma PushDescends(k: Kernel, k': Kernel, base: nat, s: seq<nat>, prio: nat, m: nat)
    requires Descends(k, base, s, prio) && (forall i :: i in s ==> Saved(k', i) == Saved(k, i)) && Saved(k', m) == prio
    ensures Descends(k', base, s + [m], prio)
  {
    hide Saved;
  }

  lemma {:induction false} DropKeepsOrder(s: seq<nat>, m: nat, i: nat, j: nat) returns (i': nat, j': nat)
    requires i < j < |Drop(s, m)|
    ensures i' < j' < |s| && s[i'] == Drop(s, m)[i] && s[j'] == Drop(s, m)[j]
  {
    if s[0] == m {
      i', j' := DropKeepsOrder(s[1..], m, i, j);
      i', j' := i' + 1, j' + 1;
    } else if i > 0 {
      i', j' := DropKeepsOrder(s[1..], m, i - 1, j - 1);
      i', j' := i' + 1, j' + 1;
    } else {
      i' := 0;
      assert Drop(s, m)[j] == Drop(s[1..], m)[j - 1];
      assert Drop(s, m)[j] in Drop(s[1..], m);
      var p :| 0 <= p < |s[1..]| && s[1..][p] == Drop(s, m)[j];
      j' := p + 1;
    }
  }

  lemma DropStaysSorted(k: Kernel, base: nat, s: seq<nat>, m: nat, prio: nat, i: nat, j: nat)
    requires Descends(k, base, s, prio) && i < j < |Drop(s, m)|
    ensures Saved(k, Drop(s, m)[j]) <= Saved(k, Drop(s, m)[i])
  {
    var i', j' := DropKeepsOrder(s, m, i, j);
  }

  lemma InOrderHere(k: Kernel, base: nat, s: seq<nat>, m: nat, prio: nat)
    requires Descends(k, base, s, prio) && NoDup(s) && m in s
    ensures Descends(k, base, Drop(s, m), Saved(k, m)) <==> Saved(k, m) == Saved(k, s[|s| - 1])
  {
    var p := CutAt(k, base, s, m, prio);
    hide Drop, NoDup, Saved;
  }

  /** The stack without `m`: still in order, with the same top unless `m` was the top. */
  lemma CutAt(k: Kernel, base: nat, s: seq<nat>, m: nat, prio: nat) returns (p: nat)
    requires Descends(k, base, s, prio) && NoDup(s) && m in s
    ensures p < |s| && s[p] == m
    ensures var r := Drop(s, m);
            && |r| == |s| - 1
            && (r != [] ==> r[0] == (if p == 0 then s[1] else s[0])
                            && r[|r| - 1] == (if p == |s| - 1 then s[|s| - 2] else s[|s| - 1]))
            && forall i, j :: 0 <= i < j < |r| ==> Saved(k, r[j]) <= Saved(k, r[i])
  {
    hide *;
    p :| 0 <= p < |s| && s[p] == m;
    DropAt(s, p);
    CutEnds(s, p);
    var r := Drop(s, m);
    forall i, j | 0 <= i < j < |r| ensures Saved(k, r[j]) <= Saved(k, r[i]) {
      DropStaysSorted(k, base, s, m, prio, i, j);
    }
  }

  lemma CutEnds(s: seq<nat>, p: nat)
    requires p < |s|
    ensures var r := s[..p] + s[p + 1..];
            && |r| == |s| - 1
            && (r != [] ==> r[0] == (if p == 0 then s[1] else s[0])
                            && r[|r| - 1] == (if p == |s| - 1 then s[|s| - 2] else s[|s| - 1]))
  {
  }

  lemma LowerDescends(k: Kernel, base: nat, s: seq<nat>, prio: nat, lower: nat)
    requires Descends(k, base, s, prio) && s != [] && lower <= prio
    ensures Descends(k, base, s, lower)
  {
  }

  /** The running task's stack after it has given `m` back is in order exactly if `m` and the top saved the same. */
  lemma PoppedInOrder(k: Kernel, k': Kernel, h: Hist, h': Hist, t: Tid, m: nat)
    requires Sized(k, h) && Sized(k', h') && k'.cfg == k.cfg && t < k.cfg.tasks && NoDup(h.held[t])
    requires Popped(k, k', h, h', t, m) && Descends(k, h.base[t], h.held[t], k.tcbs[t].prio)
    ensures Descends(k', h'.base[t], h'.held[t], k'.tcbs[t].prio) <==>
            Saved(k, m) == Saved(k, h.held[t][|h.held[t]| - 1])
  {
    var s := h.held[t];
    InOrderHere(k, h.base[t], s, m, k.tcbs[t].prio);
    SameDescends(k, k', h.base[t], Drop(s, m), Saved(k, m));
    hide Descends, Drop, NoDup, Saved;
  }

  lemma SameDescends(k: Kernel, k': Kernel, base: nat, s: seq<nat>, prio: nat)
    requires SavedSame(k, k', s)
    ensures Descends(k', base, s, prio) <==> Descends(k, base, s, prio)
  {
    hide Saved;
  }

  lemma MoveDescends(k: Kernel, op: Op, k': Kernel, h: Hist, h': Hist, t: Tid)
    requires Sized(k, h) && Sized(k', h') && k'.cfg == k.cfg && t < k.cfg.tasks && SparesHolders(k, op, h)
    requires Moves(k, op, k', h, h', t) && !(FinalRelease(k, op) && t == k.run)
    requires !k.tcbs[t].st.unused ==> Descends(k, h.base[t], h.held[t], k.tcbs[t].prio)
    ensures Descends(k', h'.base[t], h'.held[t], k'.tcbs[t].prio)
  {
    if Rests(k, k', h, h', t) || Boosted(k, k', h, h', t) {
      SameDescends(k, k', h.base[t], h.held[t], k.tcbs[t].prio);
      if Boosted(k, k', h, h', t) {
        LowerDescends(k', h.base[t], h.held[t], k.tcbs[t].prio, k'.tcbs[t].prio);
      }
    } else if Rebased(k, k', h, h', t) {
    } else {
      var m := h'.held[t][|h'.held[t]| - 1];
      PushDescends(k, k', h.base[t], h.held[t], k.tcbs[t].prio, m);
    }
    hide Saved;
  }

  lemma TrackStep(k: Kernel, op: Op, k': Kernel, h: Hist, h': Hist)
    requires Moved(k, op, k', h, h') && Tracks(k, h) && Sized(k, h) && SparesHolders(k, op, h)
    ensures Tracks(k', h') <==> Even(k, op, h)
  {
    HoldsSized(k', h');
    forall t | 0 <= t < k.cfg.tasks && !k'.tcbs[t].st.unused && !(FinalRelease(k, op) && t == k.run)
      ensures Descends(k', h'.base[t], h'.held[t], k'.tcbs[t].prio)
    {
      assert Moves(k, op, k', h, h', t);
      MoveDescends(k, op, k', h, h', t);
    }
    if FinalRelease(k, op) && k.run < k.cfg.tasks {
      HoldsNoDup(k, h, k.run);
      PoppedInOrder(k, k', h, h', k.run, op.mux);
    }
    hide Descends, Saved, Owns, Holds, Moves;
  }

  lemma HoldsNoDup(k: Kernel, h: Hist, t: Tid)
    requires Holds(k, h) && t < k.cfg.tasks
    ensures NoDup(h.held[t])
  {
  }

  /**
   * One final release, handed over or not: who gives `m` back has the priority that `m` saved; it is at its base if
   * that was its last mutex exactly when `m` was taken at the base; and all stacks stay in order exactly when `m`
   * saved what the mutex taken last saved.
   */
  lemma ReleaseExactly(k: Kernel, h: Hist, m: nat)
    requires KernelOK(k) && Holds(k, h) && FinalRelease(k, MuxPost(m))
    ensures Sized(k, h) && Members(k, MuxList(m)) && k.run < k.cfg.tasks && h.held[k.run] != []
    ensures var o := Mutex.Post(k, m);
            var h' := Record(k, MuxPost(m), Ok, h);
            && o.ret == Ok && Sized(o.k, h') && o.k.cfg == k.cfg && Popped(k, o.k, h, h', k.run, m)
            && (AtBase(k, h) ==> (AtBase(o.k, h') <==> (h.held[k.run] == [m] ==> Saved(k, m) == h.base[k.run])))
            && (Tracks(k, h) ==> (Tracks(o.k, h') <==> Saved(k, m) == Saved(k, h.held[k.run][|h.held[k.run]| - 1])))
  {
    hide *;
    RunInRange(k);
    ReleaseMoves(k, h, m);
    var o, h' := Mutex.Post(k, m), Record(k, MuxPost(m), Ok, h);
    HoldsSized(k, h);
    RunIsTask(k);
    MovedHolds(k, MuxPost(m), o.k, h, h');
    HoldsSized(o.k, h');
    OnlyOne(k, h, m);
    ReleasePops(k, MuxPost(m), o.k, h, h');
    if AtBase(k, h) {
      BaseStep(k, MuxPost(m), o.k, h, h');
      ReturnsIs(k, h, m);
    }
    if Tracks(k, h) {
      SparesByPost(k, h, m);
      TrackStep(k, MuxPost(m), o.k, h, h');
      EvenIs(k, h, m);
    }
  }

  lemma RunIsTask(k: Kernel)
    requires KernelOK(k)
    ensures k.run < k.cfg.tasks
  {
  }

  lemma ReleasePops(k: Kernel, op: Op, k': Kernel, h: Hist, h': Hist)
    requires Moved(k, op, k', h, h') && FinalRelease(k, op) && k.run < k.cfg.tasks
    ensures op.MuxPost? && Sized(k, h) && Sized(k', h') && k'.cfg == k.cfg && Popped(k, k', h, h', k.run, op.mux)
    ensures h.held[k.run] != []
  {
  }

  lemma ReturnsIs(k: Kernel, h: Hist, m: nat)
    requires Sized(k, h) && FinalRelease(k, MuxPost(m)) && k.run < k.cfg.tasks
    requires Drop(h.held[k.run], m) == [] <==> h.held[k.run] == [m]
    ensures Returns(k, MuxPost(m), h) <==> (h.held[k.run] == [m] ==> Saved(k, m) == h.base[k.run])
  {
  }

  lemma EvenIs(k: Kernel, h: Hist, m: nat)
    requires Sized(k, h) && FinalRelease(k, MuxPost(m)) && k.run < k.cfg.tasks && h.held[k.run] != []
    ensures Even(k, MuxPost(m), h) <==> Saved(k, m) == Saved(k, h.held[k.run][|h.held[k.run]| - 1])
  {
  }

  lemma SparesByPost(k: Kernel, h: Hist, m: nat)
    ensures SparesHolders(k, MuxPost(m), h)
  {
  }

  lemma OnlyOne(k: Kernel, h: Hist, m: nat)
    requires Holds(k, h) && FinalRelease(k, MuxPost(m)) && k.run < k.cfg.tasks
    ensures Drop(h.held[k.run], m) == [] <==> h.held[k.run] == [m]
  {
    var s := h.held[k.run];
    assert m in s && NoDup(s);
    if s[0] == m {
      assert |s| > 1 ==> s[1] in Drop(s, m);
      assert Drop([m], m) == Drop([], m);
    } else {
      assert s[0] in Drop(s, m);
    }
  }

  ghost predicate AlwaysTracks(k: Kernel, steps: seq<Step>, h: Hist)
    requires KernelOK(k) && LegalRun(k, steps)
    decreases |steps|
  {
    Tracks(k, h) && (steps == [] || AlwaysTracks(Next(k, steps[0]), steps[1..], StepRecord(k, steps[0], h)))
  }

  ghost predicate RunEven(k: Kernel, steps: seq<Step>, h: Hist)
    requires KernelOK(k) && LegalRun(k, steps) && Holds(k, h)
    decreases |steps|
  {
    HoldsSized(k, h);
    steps == [] ||
    (Even(k, OpOrNone(steps[0]), h)
     && (StepHolds(k, steps[0], h); RunEven(Next(k, steps[0]), steps[1..], StepRecord(k, steps[0], h))))
  }

  ghost predicate RunSparesHolders(k: Kernel, steps: seq<Step>, h: Hist)
    requires KernelOK(k) && LegalRun(k, steps)
    decreases |steps|
  {
    steps == [] ||
    (SparesHolders(k, OpOrNone(steps[0]), h)
     && RunSparesHolders(Next(k, steps[0]), steps[1..], StepRecord(k, steps[0], h)))
  }

  /**
   * Over every run in which no priority is set on a holder: in all its states the priorities saved by each task's
   * mutexes descend from its base to its current priority, in the order it got them, exactly when each final release
   * is of a mutex that saved what the one taken last saved.
   */
  lemma {:induction false} InOrderExactly(k: Kernel, steps: seq<Step>, h: Hist)
    requires KernelOK(k) && LegalRun(k, steps) && Tracks(k, h) && RunSparesHolders(k, steps, h)
    ensures AlwaysTracks(k, steps, h) <==> RunEven(k, steps, h)
    decreases |steps|
  {
    if steps != [] {
      StepMoves(k, steps[0], h);
      hide Next, StepRecord, Tracks, Holds, Moved, Even, Legal;
      HoldsSized(k, h);
      var k', h' := Next(k, steps[0]), StepRecord(k, steps[0], h);
      TrackStep(k, OpOrNone(steps[0]), k', h, h');
      if Tracks(k', h') {
        InOrderExactly(k', steps[1..], h');
      }
    }
  }

  // ---- Releases in the opposite order of acquisition ----

  /** Mutexes are released in the opposite order of acquisition, and no priority is set on a holder. */
  ghost predicate Disciplined(k: Kernel, op: Op, h: Hist)
    requires Sized(k, h)
  {
    && SparesHolders(k, op, h)
    && (FinalRelease(k, op) && k.run < k.cfg.tasks ==>
          h.held[k.run] != [] && h.held[k.run][|h.held[k.run]| - 1] == op.mux)
  }

  ghost predicate RunDisciplined(k: Kernel, steps: seq<Step>, h: Hist)
    requires KernelOK(k) && LegalRun(k, steps) && Holds(k, h)
    decreases |steps|
  {
    HoldsSized(k, h);
    steps == [] ||
    (Disciplined(k, OpOrNone(steps[0]), h)
     && (StepHolds(k, steps[0], h); RunDisciplined(Next(k, steps[0]), steps[1..], StepRecord(k, steps[0], h))))
  }

  /** It is a special case of both conditions. */
  lemma DisciplinedIs(k: Kernel, op: Op, h: Hist)
    requires Holds(k, h) && Sized(k, h) && Disciplined(k, op, h)
    ensures Even(k, op, h) && FirstLast(k, op, h) && SparesHolders(k, op, h)
  {
    if FinalRelease(k, op) && k.run < k.cfg.tasks && h.held[k.run][0] == op.mux {
      assert NoDup(h.held[k.run]);
    }
    hide Owns, Saved;
  }

  /**
   * Over every run in which mutexes are released in the opposite order of acquisition and no priority is set on a
   * holder: each task's saved priorities descend from its base to its current priority, whatever boosts, timeouts
   * and hand-overs occurred.
   */
  lemma {:induction false} StackOverRuns(k: Kernel, steps: seq<Step>, h: Hist)
    requires KernelOK(k) && LegalRun(k, steps) && Tracks(k, h) && RunDisciplined(k, steps, h)
    ensures Tracks(Run(k, steps), RunRecord(k, steps, h))
    ensures RunFirstLast(k, steps, h)
    decreases |steps|
  {
    if steps != [] {
      StepMoves(k, steps[0], h);
      hide Next, StepRecord, Tracks, Holds, Moved, Even, Legal, Disciplined, FirstLast;
      HoldsSized(k, h);
      DisciplinedIs(k, OpOrNone(steps[0]), h);
      var k', h' := Next(k, steps[0]), StepRecord(k, steps[0], h);
      TrackStep(k, OpOrNone(steps[0]), k', h, h');
      StackOverRuns(k', steps[1..], h');
    }
  }

  /** So these releases too bring every task back to its base priority. */
  lemma DisciplinedReturns(k: Kernel, steps: seq<Step>, h: Hist)
    requires KernelOK(k) && LegalRun(k, steps) && Tracks(k, h) && RunDisciplined(k, steps, h)
    ensures AtBase(k, h) && RunReturns(k, steps, h)
  {
    hide *;
    TracksGrounded(k, h);
    TracksHolds(k, h);
    StackOverRuns(k, steps, h);
    FirstLastReturns(k, steps, h);
  }

  lemma TracksHolds(k: Kernel, h: Hist)
    requires Tracks(k, h)
    ensures Holds(k, h)
  {
  }

  lemma TracksGrounded(k: Kernel, h: Hist)
    requires Tracks(k, h)
    ensures Grounded(k, h) && AtBase(k, h)
  {
    hide Owns, Saved;
  }

  // ---- From start-up ----

  /** At start-up nobody holds a mutex, and each task's base priority is the one it was created with. */
  function FirstHist(k: Kernel): Hist
    requires k.cfg.tasks <= |k.tcbs|
  {
    Hist(seq(k.cfg.tasks, t requires 0 <= t < k.cfg.tasks => k.tcbs[t].prio), seq(k.cfg.tasks, _ => []))
  }

  lemma NothingHeld(k: Kernel)
    requires Shape(k) && forall m :: 0 <= m < |k.obj.muxes| ==> k.obj.muxes[m].count == 0
    ensures Tracks(k, FirstHist(k)) && AtBase(k, FirstHist(k))
  {
    var h := FirstHist(k);
    forall t, m: nat ensures !Owns(k, t, m) {
    }
    assert forall t :: 0 <= t < k.cfg.tasks ==> h.held[t] == [];
    assert NoDup<nat>([]);
  }

  /**
   * From any start-up through any run: the tasks that hold nothing stay at their base priorities exactly when each
   * release that leaves its owner without a mutex returns to the base.
   */
  lemma BackAtBaseFromBoot(cfg: Config, n: Limits, s: Setup, steps: seq<Step>, t: Tid)
    requires Bootable(cfg, n, s) && t < cfg.tasks
    ensures var k := Booted(cfg, n, s);
            && KernelOK(k) && k.cfg == cfg && cfg.tasks < |k.tcbs| && AtBase(k, FirstHist(k)) && Tracks(k, FirstHist(k))
            && (LegalRun(k, steps) ==>
                  && (AlwaysAtBase(k, steps, FirstHist(k)) <==> RunReturns(k, steps, FirstHist(k)))
                  && (RunReturns(k, steps, FirstHist(k)) ==>
                        var k', h' := Run(k, steps), RunRecord(k, steps, FirstHist(k));
                        && t < |k'.tcbs| && t < |h'.base|
                        && (!k'.tcbs[t].st.unused && (forall m: nat :: !Owns(k', t, m)) ==>
                              k'.tcbs[t].prio == h'.base[t])))
  {
    hide *;
    var k := Booted(cfg, n, s);
    KernelSize(k);
    NothingHeld(k);
    if LegalRun(k, steps) {
      AtBaseExactly(k, steps, FirstHist(k));
      if RunReturns(k, steps, FirstHist(k)) {
        AlwaysAtEnd(k, steps, FirstHist(k));
        KernelSize(Run(k, steps));
        BaseSizes(Run(k, steps), RunRecord(k, steps, FirstHist(k)));
        if !Run(k, steps).tcbs[t].st.unused && (forall m: nat :: !Owns(Run(k, steps), t, m)) {
          BackAtBase(k, steps, FirstHist(k), t);
        }
      }
    }
  }

  lemma KernelSize(k: Kernel)
    requires KernelOK(k)
    ensures |k.tcbs| == k.cfg.tasks + 1 && Shape(k)
  {
  }

  lemma BaseSizes(k: Kernel, h: Hist)
    requires AtBase(k, h)
    ensures |h.base| == k.cfg.tasks
  {
  }

  // ---- Releasing out of order ----

  /** Two mutexes, the inner one taken at a boosted priority, released outer first: the boost is never undone. */
  lemma OutOfOrderLosesBase(k: Kernel, h: Hist, a: nat, b: nat)
    requires KernelOK(k) && Tracks(k, h) && h.held[k.run] == [a, b]
    requires a < |k.obj.muxes| && b < |k.obj.muxes|
    requires k.obj.muxes[a].count == 1 && k.obj.muxes[b].count == 1
    requires At(k.lists, MuxList(a)) == [] && At(k.lists, MuxList(b)) == []
    requires Saved(k, b) != h.base[k.run]
    ensures Members(k, MuxList(a))
    ensures var k1 := Mutex.Post(k, a).k;
            && k1.run == k.run && |k1.tcbs| == |k.tcbs| && Members(k1, MuxList(b))
            && var k2 := Mutex.Post(k1, b).k;
               && |k2.tcbs| == |k.tcbs|
               && (forall m: nat :: !Owns(k2, k.run, m))
               && k2.tcbs[k.run].prio != h.base[k.run]
  {
    hide *;
    HoldsBoth(k, h, a, b);
    PlainRelease(k, a);
    var k1 := Mutex.Post(k, a).k;
    StillOwned(k, k1, a, b);
    PlainRelease(k1, b);
    RunInRange(k1);
    NothingOwned(k, k1, Mutex.Post(k1, b).k, a, b);
  }

  lemma HoldsBoth(k: Kernel, h: Hist, a: nat, b: nat)
    requires KernelOK(k) && Tracks(k, h) && h.held[k.run] == [a, b]
    ensures k.run < |k.tcbs| && Owns(k, k.run, a) && Owns(k, k.run, b) && a != b
    ensures forall m: nat :: Owns(k, k.run, m) ==> m == a || m == b
  {
    assert forall m: nat :: m in h.held[k.run] <==> m == a || m == b;
    assert h.held[k.run][0] != h.held[k.run][1];
    hide Descends;
  }

  lemma StillOwned(k: Kernel, k1: Kernel, a: nat, b: nat)
    requires a < |k.obj.muxes| && a != b && k1.run == k.run && Owns(k, k.run, b)
    requires k1.obj.muxes == k.obj.muxes[a := k.obj.muxes[a].(count := 0)]
    requires forall l: ListId :: l.IsWait() ==> At(k1.lists, l) == At(k.lists, l)
    ensures Owns(k1, k1.run, b) && k1.obj.muxes[b] == k.obj.muxes[b]
            && At(k1.lists, MuxList(b)) == At(k.lists, MuxList(b))
    ensures Saved(k1, b) == Saved(k, b) == k1.obj.muxes[b].prio
  {
  }

  lemma NothingOwned(k: Kernel, k1: Kernel, k2: Kernel, a: nat, b: nat)
    requires a < |k.obj.muxes| && b < |k.obj.muxes| && a != b
    requires forall m: nat :: Owns(k, k.run, m) ==> m == a || m == b
    requires k1.obj.muxes == k.obj.muxes[a := k.obj.muxes[a].(count := 0)]
    requires k2.obj.muxes == k1.obj.muxes[b := k1.obj.muxes[b].(count := 0)]
    ensures forall m: nat :: !Owns(k2, k.run, m)
  {
    forall m: nat ensures !Owns(k2, k.run, m) {
      assert Owns(k2, k.run, m) ==> Owns(k, k.run, m);
    }
  }

  lemma PlainRelease(k: Kernel, m: nat)
    requires KernelOK(k) && Owns(k, k.run, m) && k.obj.muxes[m].count == 1 && At(k.lists, MuxList(m)) == []
    ensures Members(k, MuxList(m))
    ensures var k' := Mutex.Post(k, m).k;
            && KernelOK(k') && k'.run == k.run && k'.cfg == k.cfg
            && k'.obj.muxes == k.obj.muxes[m := k.obj.muxes[m].(count := 0)]
            && (forall l: ListId :: l.IsWait() ==> At(k'.lists, l) == At(k.lists, l))
            && k'.tcbs == k.tcbs[k.run := k.tcbs[k.run].(prio := k.obj.muxes[m].prio)]
  {
    assert MuxOK(k, k.obj.muxes[m], At(k.lists, MuxList(m)));
    MuxPostOK(k, m);
    RestoreOK(k, m);
  }
}
