/** The `taskStatus` word (kernel/include/los_task.h) and the flags it stands for. */
module StatusWord {
  import opened KernelState

  const UNUSED: bv16 := 0x0001
  const SUSPEND: bv16 := 0x0002
  const READY: bv16 := 0x0004
  const PEND: bv16 := 0x0008
  const RUNNING: bv16 := 0x0010
  const DELAY: bv16 := 0x0020
  const TIMEOUT: bv16 := 0x0040
  const PEND_TIME: bv16 := 0x0080

  predicate Test(w: bv16, mask: bv16) {
    w & mask != 0
  }

  function Set(w: bv16, mask: bv16): bv16 {
    w | mask
  }

  function Clear(w: bv16, mask: bv16): bv16 {
    w & !mask
  }

  function FlagsOf(w: bv16): Flags {
    Flags(Test(w, UNUSED), Test(w, SUSPEND), Test(w, READY), Test(w, PEND),
          Test(w, RUNNING), Test(w, DELAY), Test(w, TIMEOUT), Test(w, PEND_TIME))
  }

  function Plus(f: Flags, g: Flags): Flags {
    Flags(f.unused || g.unused, f.suspend || g.suspend, f.ready || g.ready, f.pend || g.pend,
          f.running || g.running, f.delay || g.delay, f.timeout || g.timeout, f.pendTime || g.pendTime)
  }

  function Minus(f: Flags, g: Flags): Flags {
    Flags(f.unused && !g.unused, f.suspend && !g.suspend, f.ready && !g.ready, f.pend && !g.pend,
          f.running && !g.running, f.delay && !g.delay, f.timeout && !g.timeout, f.pendTime && !g.pendTime)
  }

  lemma SetFlags(w: bv16, mask: bv16)
    ensures FlagsOf(Set(w, mask)) == Plus(FlagsOf(w), FlagsOf(mask))
  {
  }

  lemma ClearFlags(w: bv16, mask: bv16)
    ensures FlagsOf(Clear(w, mask)) == Minus(FlagsOf(w), FlagsOf(mask))
  {
  }

  /** The words the kernel assigns and the masks it sets, clears and tests. */
  lemma Masks()
    ensures FlagsOf(UNUSED) == NO_FLAGS.(unused := true)
    ensures FlagsOf(SUSPEND) == NO_FLAGS.(suspend := true)
    ensures FlagsOf(READY) == NO_FLAGS.(ready := true)
    ensures FlagsOf(PEND) == NO_FLAGS.(pend := true)
    ensures FlagsOf(RUNNING) == NO_FLAGS.(running := true)
    ensures FlagsOf(DELAY) == NO_FLAGS.(delay := true)
    ensures FlagsOf(TIMEOUT) == NO_FLAGS.(timeout := true)
    ensures FlagsOf(PEND_TIME) == NO_FLAGS.(pendTime := true)
    ensures FlagsOf(UNUSED | RUNNING) == NO_FLAGS.(unused := true, running := true)
    ensures FlagsOf(DELAY | PEND_TIME) == NO_FLAGS.(delay := true, pendTime := true)
    ensures FlagsOf(PEND | PEND_TIME | DELAY) == NO_FLAGS.(pend := true, pendTime := true, delay := true)
    ensures FlagsOf(PEND | SUSPEND | DELAY | PEND_TIME) == NO_FLAGS.(pend := true, suspend := true, delay := true,
                                                                     pendTime := true)
  {
  }

  lemma ClearReady(w: bv16)
    ensures FlagsOf(Clear(w, READY)) == FlagsOf(w).(ready := false)
  {
  }

  lemma ClearPend(w: bv16)
    ensures FlagsOf(Clear(w, PEND)) == FlagsOf(w).(pend := false)
  {
  }

  lemma ClearPendTime(w: bv16)
    ensures FlagsOf(Clear(w, PEND_TIME)) == FlagsOf(w).(pendTime := false)
  {
  }

  lemma ClearTimed(w: bv16)
    ensures FlagsOf(Clear(w, DELAY | PEND_TIME)) == FlagsOf(w).(delay := false, pendTime := false)
  {
  }

  lemma ClearWait(w: bv16)
    ensures FlagsOf(Clear(w, PEND | PEND_TIME | DELAY)) == FlagsOf(w).(pend := false, pendTime := false, delay := false)
  {
  }

  lemma ClearSuspend(w: bv16)
    ensures FlagsOf(Clear(w, SUSPEND)) == FlagsOf(w).(suspend := false)
  {
  }

  lemma ClearRunning(w: bv16)
    ensures FlagsOf(Clear(w, RUNNING)) == FlagsOf(w).(running := false)
  {
  }

  lemma ClearTimeout(w: bv16)
    ensures FlagsOf(Clear(w, TIMEOUT)) == FlagsOf(w).(timeout := false)
  {
  }

  lemma SetPend(w: bv16)
    ensures FlagsOf(Set(w, PEND)) == FlagsOf(w).(pend := true)
  {
  }

  lemma SetPendTime(w: bv16)
    ensures FlagsOf(Set(w, PEND_TIME)) == FlagsOf(w).(pendTime := true)
  {
  }

  lemma SetDelay(w: bv16)
    ensures FlagsOf(Set(w, DELAY)) == FlagsOf(w).(delay := true)
  {
  }

  lemma SetTimeout(w: bv16)
    ensures FlagsOf(Set(w, TIMEOUT)) == FlagsOf(w).(timeout := true)
  {
  }

  lemma SetSuspend(w: bv16)
    ensures FlagsOf(Set(w, SUSPEND)) == FlagsOf(w).(suspend := true)
  {
  }

  lemma SetRunning(w: bv16)
    ensures FlagsOf(Set(w, RUNNING)) == FlagsOf(w).(running := true)
  {
  }

  /** The status words that differ from `w` by some cleared flags, and by one flag set. */
  lemma ClearIs(w: bv16)
    ensures var f := FlagsOf(w);
            && FlagsOf(Clear(w, READY)) == f.(ready := false)
            && FlagsOf(Clear(w, PEND)) == f.(pend := false)
            && FlagsOf(Clear(w, PEND_TIME)) == f.(pendTime := false)
            && FlagsOf(Clear(w, DELAY | PEND_TIME)) == f.(delay := false, pendTime := false)
            && FlagsOf(Clear(w, PEND | PEND_TIME | DELAY)) == f.(pend := false, pendTime := false, delay := false)
            && FlagsOf(Clear(w, SUSPEND)) == f.(suspend := false)
            && FlagsOf(Clear(w, RUNNING)) == f.(running := false)
            && FlagsOf(Clear(w, TIMEOUT)) == f.(timeout := false)
  {
    hide *;
    ClearReady(w);
    ClearPend(w);
    ClearPendTime(w);
    ClearTimed(w);
    ClearWait(w);
    ClearSuspend(w);
    ClearRunning(w);
    ClearTimeout(w);
  }

  lemma SetIs(w: bv16)
    ensures var f := FlagsOf(w);
            && FlagsOf(Set(w, PEND)) == f.(pend := true)
            && FlagsOf(Set(w, PEND_TIME)) == f.(pendTime := true)
            && FlagsOf(Set(w, DELAY)) == f.(delay := true)
            && FlagsOf(Set(w, TIMEOUT)) == f.(timeout := true)
            && FlagsOf(Set(w, SUSPEND)) == f.(suspend := true)
            && FlagsOf(Set(w, RUNNING)) == f.(running := true)
  {
    hide *;
    SetPend(w);
    SetPendTime(w);
    SetDelay(w);
    SetTimeout(w);
    SetSuspend(w);
    SetRunning(w);
  }

  /** The tests of several bits at once. */
  lemma TestTimed(w: bv16)
    ensures Test(w, DELAY | PEND_TIME) <==> Test(w, DELAY) || Test(w, PEND_TIME)
  {
  }

  lemma TestWaiting(w: bv16)
    ensures Test(w, PEND | DELAY) <==> Test(w, PEND) || Test(w, DELAY)
  {
  }

  lemma TestGone(w: bv16)
    ensures Test(w, PEND | SUSPEND | UNUSED) <==> Test(w, PEND) || Test(w, SUSPEND) || Test(w, UNUSED)
  {
  }
}
