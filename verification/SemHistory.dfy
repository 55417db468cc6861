/** Over whole runs a semaphore's count and the permits it has granted add up to what was put in. */
module SemHistory {
  import opened KernelState
  import opened Sched
  import opened Invariants
  import opened TaskProofs
  import opened Machine
  import opened MachineProofs
  import opened Frames

  ghost predicate InUse(k: Kernel, s: nat) {
    s < |k.obj.sems| && k.obj.sems[s].used
  }

  /** Permits handed out by a call: to the caller of a pend that does not wait, or to the waiter a post wakes. */
  function Grants(k: Kernel, op: Op, ret: Ret, s: nat): nat {
    match op
    case SemPend(i, _) => if i == s && ret == Ok then 1 else 0
    case SemPost(i) => if i == s && ret == Ok && At(k.lists, SemList(s)) != [] then 1 else 0
    case _ => 0
  }

  function Posts(op: Op, ret: Ret, s: nat): nat {
    if op.SemPost? && op.sem == s && ret == Ok then 1 else 0
  }

  /** The count and what has been handed out balance what has been put in. */
  ghost predicate Balances(k: Kernel, op: Op, o: Out, s: nat) {
    && InUse(k, s) && InUse(o.k, s) && o.k.obj.sems[s].max == k.obj.sems[s].max
    && o.k.obj.sems[s].count + Grants(k, op, o.ret, s) == k.obj.sems[s].count + Posts(op, o.ret, s)
  }

  ghost predicate Spares(k: Kernel, step: Step, s: nat)
    requires KernelOK(k)
  {
    KernelDefined(k);
    IsOp(step) && OpOf(step).SemDelete? && OpOf(step).sem == s ==> Do(k, OpOf(step), step.Interrupt?).ret.Fail?
  }

  lemma DoSemConserves(k: Kernel, op: Op, inInt: bool, s: nat)
    requires Defined(k) && SemsOK(k) && InUse(k, s) && ServiceOf(op) == OnSem
    requires op.SemDelete? && op.sem == s ==> DoSem(k, op, inInt).ret.Fail?
    ensures Balances(k, op, DoSem(k, op, inInt), s)
  {
    hide Wake, Wait, Defined;
    match op {
      case SemCreate(_, _) =>
        if k.obj.semFree != [] {
          assert k.obj.semFree[0] in k.obj.semFree;
        }
      case SemDelete(_) =>
      case SemPend(_, _) =>
      case SemPost(_) =>
    }
  }

  lemma DoConserves(k: Kernel, op: Op, inInt: bool, s: nat)
    requires KernelOK(k) && Defined(k) && InUse(k, s)
    requires op.SemDelete? && op.sem == s ==> Do(k, op, inInt).ret.Fail?
    ensures Balances(k, op, Do(k, op, inInt), s)
  {
    SemsFact(k);
    hide DoTask, DoSem, DoMux, DoEvent, DoQueue, Defined, KernelOK, SemsOK, Balances, InUse;
    match ServiceOf(op) {
      case OnTask =>
        if op.Finish? {
          FinishIsTask(k, op, inInt);
          FinishKeeps(k);
        } else {
          TaskCallsKeepObjects(k, op, inInt);
        }
        SameSems(k, op, Do(k, op, inInt), s);
      case OnSem => DoSemConserves(k, op, inInt, s);
      case OnMux =>
        MuxCallsKeep(k, op, inInt);
        SameSems(k, op, Do(k, op, inInt), s);
      case OnEvent =>
        EventCallsKeep(k, op, inInt);
        SameSems(k, op, Do(k, op, inInt), s);
      case OnQueue =>
        QueueCallsKeep(k, op, inInt);
        SameSems(k, op, Do(k, op, inInt), s);
    }
  }

  lemma SemsFact(k: Kernel)
    requires KernelOK(k)
    ensures SemsOK(k)
  {
  }

  lemma SameSems(k: Kernel, op: Op, o: Out, s: nat)
    requires InUse(k, s) && o.k.obj.sems == k.obj.sems && ServiceOf(op) != OnSem
    ensures Balances(k, op, o, s)
  {
  }

  ghost function StepGrants(k: Kernel, step: Step, s: nat): nat
    requires KernelOK(k) && Legal(k, step)
  {
    KernelDefined(k);
    if IsOp(step) then Grants(k, OpOf(step), Do(k, OpOf(step), step.Interrupt?).ret, s) else 0
  }

  ghost function StepPosts(k: Kernel, step: Step, s: nat): nat
    requires KernelOK(k) && Legal(k, step)
  {
    KernelDefined(k);
    if IsOp(step) then Posts(OpOf(step), Do(k, OpOf(step), step.Interrupt?).ret, s) else 0
  }

  lemma StepConserves(k: Kernel, step: Step, s: nat)
    requires KernelOK(k) && Legal(k, step) && InUse(k, s) && Spares(k, step, s)
    ensures var k' := Next(k, step);
            && InUse(k', s) && k'.obj.sems[s].max == k.obj.sems[s].max
            && k'.obj.sems[s].count + StepGrants(k, step, s) == k.obj.sems[s].count + StepPosts(k, step, s)
  {
    NextObjects(k, step);
    if IsOp(step) {
      DoConserves(k, OpOf(step), step.Interrupt?, s);
    }
  }

  ghost predicate SparesAll(k: Kernel, steps: seq<Step>, s: nat)
    requires KernelOK(k) && LegalRun(k, steps)
    decreases |steps|
  {
    steps == [] || (Spares(k, steps[0], s) && SparesAll(Next(k, steps[0]), steps[1..], s))
  }

  ghost function AllGrants(k: Kernel, steps: seq<Step>, s: nat): nat
    requires KernelOK(k) && LegalRun(k, steps)
    decreases |steps|
  {
    if steps == [] then 0 else StepGrants(k, steps[0], s) + AllGrants(Next(k, steps[0]), steps[1..], s)
  }

  ghost function AllPosts(k: Kernel, steps: seq<Step>, s: nat): nat
    requires KernelOK(k) && LegalRun(k, steps)
    decreases |steps|
  {
    if steps == [] then 0 else StepPosts(k, steps[0], s) + AllPosts(Next(k, steps[0]), steps[1..], s)
  }

  /**
   * Over every run that does not delete the semaphore: its count plus the permits granted is its initial count
   * plus the successful posts; the count stays within the maximum, and nobody waits while it is positive.
   */
  lemma {:induction false} ConservedOverRuns(k: Kernel, steps: seq<Step>, s: nat)
    requires KernelOK(k) && LegalRun(k, steps) && InUse(k, s) && SparesAll(k, steps, s)
    ensures var k' := Run(k, steps);
            && InUse(k', s)
            && k'.obj.sems[s].count + AllGrants(k, steps, s) == k.obj.sems[s].count + AllPosts(k, steps, s)
            && k'.obj.sems[s].count <= k'.obj.sems[s].max == k.obj.sems[s].max
            && (At(k'.lists, SemList(s)) != [] ==> k'.obj.sems[s].count == 0)
    decreases |steps|
  {
    if steps == [] {
      assert SemOK(k.obj.sems[s], At(k.lists, SemList(s)));
    } else {
      StepConserves(k, steps[0], s);
      ConservedOverRuns(Next(k, steps[0]), steps[1..], s);
    }
  }
}
