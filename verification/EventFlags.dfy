/** kernel/src/los_event.c */
module EventFlags {
  import opened KernelState
  import opened Sched

  const MODE_AND: bv32 := 4
  const MODE_OR: bv32 := 2
  const MODE_CLR: bv32 := 1
  const ERROR_BIT: bv32 := 0x0200_0000

  function SetEvent(k: Kernel, e: nat, x: Event): Kernel
    requires e < |k.obj.events|
  {
    k.(obj := k.obj.(events := k.obj.events[e := x]))
  }

  /** The bits a reader asking for `mask` in `mode` would get out of `bits`. */
  function Match(bits: bv32, mask: bv32, mode: bv32): bv32 {
    if mode & MODE_OR != 0 then bits & mask
    else if mask != 0 && mask == bits & mask then bits & mask
    else 0
  }

  function Poll(bits: bv32, mask: bv32, mode: bv32): (bv32, bv32) {
    var got := Match(bits, mask, mode);
    (if got != 0 && mode & MODE_CLR != 0 then bits & !got else bits, got)
  }

  predicate ModeOK(mode: bv32) {
    && !(mode & MODE_OR != 0 && mode & MODE_AND != 0)
    && mode & !(MODE_OR | MODE_AND | MODE_CLR) == 0
    && mode & (MODE_OR | MODE_AND) != 0
  }

  function PollNow(k: Kernel, e: nat, mask: bv32, mode: bv32): Out
    requires e < |k.obj.events|
  {
    var x := k.obj.events[e];
    var (bits, got) := Poll(x.bits, mask, mode);
    Out(SetEvent(k, e, x.(bits := bits)), Bits(got), false)
  }

  function Read(k: Kernel, e: nat, mask: bv32, mode: bv32, timeout: nat, inInt: bool): Out
    requires k.run < |k.tcbs|
  {
    if e >= |k.obj.events| || !k.obj.events[e].ready then Out(k, Fail(EventNotInitialized), false)
    else if mask == 0 then Out(k, Fail(EventMaskInvalid), false)
    else if mask & ERROR_BIT != 0 then Out(k, Fail(EventBitInvalid), false)
    else if !ModeOK(mode) then Out(k, Fail(EventFlagsInvalid), false)
    else if inInt then Out(k, Fail(EventReadInInterrupt), false)
    else
      var o := PollNow(k, e, mask, mode);
      if o.ret.bits != 0 || timeout == 0 then o
      else if k.lock != 0 then Out(o.k, Fail(EventReadInLock), false)
      else
        var c := o.k.tcbs[k.run];
        Out(Wait(SetTcb(o.k, k.run, c.(eventMask := mask, eventMode := mode)), EventCall(e, mask, mode), timeout),
            Waiting, true)
  }

  /** The test LOS_EventWrite makes: OR readers are compared with the newly written bits only. */
  predicate Satisfied(mask: bv32, mode: bv32, written: bv32, bits: bv32) {
    || (mode & MODE_OR != 0 && mask & written != 0)
    || (mode & MODE_AND != 0 && mask & bits == mask)
  }

  predicate Hit(k: Kernel, t: Tid, test: (bv32, bv32) -> bool)
    requires t < |k.tcbs|
  {
    test(k.tcbs[t].eventMask, k.tcbs[t].eventMode)
  }

  /** The traversal of the wait list with removal, over the tasks `todo` still ahead. */
  function WakeWhere(k: Kernel, todo: seq<Tid>, test: (bv32, bv32) -> bool): (r: (Kernel, bool))
    requires forall t :: t in todo ==> t < |k.tcbs|
    ensures |r.0.tcbs| == |k.tcbs| && r.0.obj == k.obj
    decreases |todo|
  {
    if todo == [] then (k, false)
    else
      assert todo[0] in todo;
      var hit := Hit(k, todo[0], test);
      var k1 := if hit then Wake(k, todo[0]) else k;
      assert forall t :: t in todo[1..] ==> t in todo;
      var r := WakeWhere(k1, todo[1..], test);
      (r.0, hit || r.1)
  }

  function Write(k: Kernel, e: nat, events: bv32): Out
    requires Members(k, EventList(e))
  {
    if e >= |k.obj.events| || !k.obj.events[e].ready then Out(k, Fail(EventNotInitialized), false)
    else if events & ERROR_BIT != 0 then Out(k, Fail(EventBitInvalid), false)
    else
      var bits := k.obj.events[e].bits | events;
      var k1 := SetEvent(k, e, k.obj.events[e].(bits := bits));
      var r := WakeWhere(k1, At(k.lists, EventList(e)), (mask, mode) => Satisfied(mask, mode, events, bits));
      Out(r.0, Ok, r.1)
  }

  function Clear(k: Kernel, e: nat, events: bv32): Out {
    if e >= |k.obj.events| then Out(k, Fail(EventNotInitialized), false)
    else Out(SetEvent(k, e, k.obj.events[e].(bits := k.obj.events[e].bits & events)), Ok, false)
  }

  function Init(k: Kernel, e: nat): Out {
    if e >= |k.obj.events| then Out(k, Fail(EventNotInitialized), false)
    else Out(SetEvent(k, e, Event(true, 0)), Ok, false)
  }

  function Destroy(k: Kernel, e: nat): Out {
    if e >= |k.obj.events| then Out(k, Fail(EventNotInitialized), false)
    else if At(k.lists, EventList(e)) != [] then Out(k, Fail(EventInUse), false)
    else Out(SetEvent(k, e, k.obj.events[e].(ready := false)), Ok, false)
  }
}
