# LiteOS-M kernel: scheduler and blocking primitives

This project models the scheduler of the LiteOS-M kernel together with everything that shares its task control blocks:
task creation and deletion, suspension, delays and priorities, semaphores, mutexes, message queues, events, the
deadline queues, software timers and the programming of the tick timer. In this code one list node and one deadline
node per task are threaded through ready queues, wait lists, the free list and the timer list, and every call edits
them in place under an interrupt lock, so what is worth proving is what holds over whole runs.

There are two layers.

* The kernel as a state machine on values. `KernelState` holds the state, `Sched`, `Task`, `Semaphore`, `Mutex`,
  `MessageQueue` and `EventFlags` the calls, `Machine` all of them as one step relation, and `Boot` the start.
  `SchedProofs`, `TaskProofs`, `ObjectProofs`, `QueueProofs`, `EventProofs` and `MachineProofs` prove one inductive
  invariant; the remaining modules prove what runs do: `Outcomes` and `Fates` (grants and timeouts), `QueueHistory`,
  `SemHistory`, `MuxHistory`, `MuxStacks`, `MuxPriority` and `MuxRun` (histories), `WaitOrder` and `RoundRobin`
  (fairness), `TickProgram` (response time), `SwTimerProofs` and `SwTimerRuns` (software timers).
* The kernel in place. `DoubleList` is the circular list of utils/los_list.h on real nodes, `SortLink` the deadline ring,
  `TaskLists` all lists over one node a task, `ReadyBitmap` and `StatusWord` the words, `KernelObjects` the globals.
  `SchedCode`, `SwitchCode`, `TaskCode`, `SemCode`, `MuxCode`, `QueueCode`, `EventCode` and `FinishCode` hold a method for each
  source function, proved to act on the globals as the state machine acts on the state they stand for; `KernelBoot`
  sets up and starts them and `KernelCode` joins them into steps and runs, so every statement about runs is one about the methods.
  `QueueBuffer`, `QueueMemory` and `QueueBytes` do the bytes of the queues, `SwTimerTable` the software timers.

`dafny verify dfyconfig.toml` checks the whole project.

## Assumptions

The predicates `OpLegal` and `Legal` of `MachineProofs` and `Legal` of `SwTimerRuns` say which steps a run may take. They assume:

* Each region between LOS_IntLock and LOS_IntRestore is one atomic step, and LOS_TaskCreate is one step.
* A call that waits consists of the wait and the switch it asks for, in one step, and of its second half, `Finish`, when
  the task runs again; nobody wakes or resumes the running task between the wait and the switch.
* No task is deleted while it owns a mutex, nor between being woken inside a queue call and finishing that call.
* LOS_EventInit is not called on an event that tasks wait for.
* The idle task never waits, and an interrupt handler neither deletes nor suspends the task it has interrupted.
* A tick comes from a handler; the clock does not go back. A pended switch is not taken while the scheduler is locked.
* Times and lock counts do not wrap: the in-place methods ask that deadlines fit the 64-bit clock (`RunFits`,
  `ClockFits`), and counts are unbounded. Slices are unbounded integers.
* Limits, slice lengths and clock rates are parameters, and the least slice is below the full one. The identifier of
  the idle task is the number of tasks created before it. Before the scheduler starts only creations are made, of
  tasks, semaphores, mutexes, queues and events, by the stand-in block that plays the running task.

## Model

| member | source | states |
|---|---|---|
| `MachineProofs.Next` | kernel/src/los_sched.c:459-533 | Every legal step from a sound state — a call by the running task with the switch it asks for, a call by an interrupt handler, or a pended switch — leads to a sound state: scheduler lists, deadlines, semaphores, mutexes, queues and events all keep their invariants. |
| `MachineProofs.Run` | kernel/src/los_sched.c:278-533 | The same for every finite run of legal steps, with the configuration unchanged. |
| `MachineProofs.DoOK` | kernel/src/los_task.c:676-1104 | Every kernel call, before any switch, keeps the scheduler and object invariants; a call that does not wait leaves the caller able to go on, and a call that waits leaves a state a switch can start from. |
| `Boot.Booted` | kernel/src/los_init.c:111-199 | The system may be set up by any sequence of task, semaphore, mutex, queue and event creations before the idle task is created, and by any sequence after that; whichever of them fail, the first scheduling leaves a sound state in which a most urgent ready task runs and no mutex is held. |
| `Boot.BootableExactly` | kernel/src/los_task.c:343-401 | Every such set-up leads to a start, whatever the calls are; the idle task's identifier is the number of tasks created before it. |
| `Boot.StartOK` | kernel/src/los_sched.c:439-457 | From any prepared state, with any tasks ready, the start of the scheduler leaves a sound state in which no ready task is more urgent than the running one. |
| `Boot.PlacementOverRuns` | kernel/src/los_sched.c:224-381 | In every state of every run each control block's list node is on the free or recycle list (not both) exactly if the block is unused, on the ready list of its priority exactly if it is ready and not the idle task, on the wait list of its own call exactly if it is pending, and on no second list; its deadline node is linked exactly if it is delayed or in a timed wait; all lists are duplicate free and the deadlines sorted. |
| `Boot.OneHome` | kernel/src/los_task.c:126-146 | A sound state determines, for each task, exactly which list holds its node, and no two lists hold it. |
| `Boot.SlotsOverRuns` | kernel/src/los_queue.c:293-330 | In every state of every run the readable and writable counts and the woken but unfinished readers and writers of a queue in use add up to its length, waiting readers imply no readable message, waiting writers no writable slot, and the tail is the head plus all stored messages. |
| `Boot.NoLostWakeup` | kernel/src/los_event.c:145-187 | In every state of every run a task on an event's wait list is pending in a read of that event and its mask and mode do not match the event's bits. |
| `SchedProofs.SwitchOK` | kernel/src/los_sched.c:459-483 | A task switch (slice charged, running task parked, top task dequeued) ends with a real, runnable task running; no ready task is more urgent than it, the idle task runs only if nothing else is ready, and no wait list or pending call is touched. The timer programming and the returned flag are stated by `TickProgram.SwitchResponse` and `SwitchCode.TaskSwitch`. |
| `TickProgram.SwitchResponse` | kernel/src/los_sched.c:487-495 | At the end of a task switch the elected task has slice left and the tick timer is set to fire no later than one window and one tick after any timed wait is over, and no later than one tick after the slice ends. |
| `SchedProofs.ScanOutcome` | kernel/src/los_sched.c:224-276 | After the timed-wait scan a task that was due is off the deadline queue, marked as timed out if it waited for an object, and on exactly the ready list of its priority, or on no list if it is suspended; a task that was not due keeps its control block and its places; and the scan asks for a reschedule exactly when it made some task ready. |
| `SchedProofs.ScanRemovesDue` | kernel/src/los_sched.c:243-276 | The scan removes from the deadline queue exactly the entries whose time is at or before the captured time and leaves the others in order. |
| `SchedProofs.WakeOK` | kernel/src/los_sched.c:350-363 | Waking a waiting task, timed or not and suspended or not, keeps every scheduler invariant: its nodes are then where its new status says. |
| `SchedProofs.WakeGrants` | kernel/src/los_sched.c:350-363 | A woken task is off every wait list and off the deadline queue, neither pending nor timed out, still inside its call, and ready exactly if it is not suspended; no other task's waiting changes. |
| `SchedProofs.ExitOK` | kernel/src/los_sched.c:309-322 | Taking a task out of scheduling leaves it on no list and without a deadline, and disturbs no other task. |
| `SchedProofs.ModifyPrioOK` | kernel/src/los_sched.c:365-381 | Changing the priority of a task in any state keeps every scheduler invariant: a ready task is then on the list of its new priority and on no other. |
| `RoundRobin.YieldRotates` | kernel/src/los_sched.c:324-329 | A yield of the running task followed by the switch rotates the row of tasks of the top priority by one place. |
| `RoundRobin.EveryoneGetsATurn` | kernel/src/los_task.c:1055-1064 | In a run of yields only, however many, control goes around the tasks of the top priority in list order: after n yields the task at place n modulo their number runs and the row is rotated by as much. |
| `WaitOrder.FirstWaitsLongest` | kernel/src/los_sched.c:337-348 | If one task stands in front of another on a wait list at the end of a run through which the second has been waiting, then the first has been waiting in front of it throughout that run. |
| `WaitOrder.HeadWaitsLongest` | kernel/src/los_mux.c:293-301 | The head of a wait list, which is the task a hand-over serves, has been waiting through every run through which any other waiter has. |
| `Outcomes.OutcomeStep` | kernel/src/los_sched.c:224-241 | While a task is inside a blocking call a step may turn its open wait into a granted one only by a call that serves it, and into a timed-out one only by a tick whose scan finds its deadline passed; a wait that is closed stays as it is. |
| `Outcomes.OutcomeIsFinal` | kernel/src/los_sched.c:337-363 | Over a whole run, once the wait of a task inside a blocking call has been granted or has timed out, that outcome does not change until the call returns. |
| `Outcomes.ClosedIsOff` | kernel/src/los_sched.c:350-363 | A closed wait has no deadline and is on no wait list; an open one is on the wait list of its call. |
| `Outcomes.FinishReports` | kernel/src/los_mux.c:236-244 | The rest of a blocking call returns the timeout error exactly if the wait timed out, and no other error. |
| `TickProgram.ResponseBound` | kernel/src/los_sched.c:128-177 | For a start time above 0 the programmed expiry is at most the soonest deadline of either queue plus one window plus one tick, at most the end of the slice plus one tick, and never later than it was; what is loaded into the timer lies between one tick and the longest interval. |
| `TickProgram.NoIdleFiring` | kernel/src/los_sched.c:128-177 | Apart from the shortest and the longest interval the timer can be loaded with, the timer is never set to fire before something is due. |
| `SortLink.WithinWindow` | kernel/src/los_sortlink.c:84-119 | The search of a deadline queue never answers earlier than the soonest deadline, and its answer is at most one window late if and only if the start time is above 0, or nothing is due at time 0, or nothing follows later than the window. |
| `TickProgram.TimeZeroIsMissed` | kernel/src/los_sortlink.c:105-107 | Started at time 0 with deadlines 0 and 500000, the search answers 500000: the deadline that is already reached is taken for none. |
| `TickProgram.TickTimer.SetNextExpireTime` | kernel/src/los_sched.c:128-177 | Run on the two linked deadline queues in place, the programming of the timer changes the expiry time, its owner and the reload value exactly as the plan that the bounds are about. |
| `TickProgram.TickTimer.UpdateExpireTime` | kernel/src/los_sched.c:179-191 | Between switches the running task's slice, or a new one if it is used up, ends the plan; the idle task has none. |
| `Deadlines.InsertSplits` | kernel/src/los_sortlink.c:51-76 | Insertion splits a sorted deadline list into the entries not later and the entries not earlier than the new one; among equals it comes last, except that a tie with the head is inserted in front. |
| `Deadlines.RemoveUndoesInsert` | kernel/src/los_sortlink.c:78-82 | Removing a record that was just inserted gives back the list, order included. |
| `SortLink.SortLinkAttribute.AddNode` | kernel/src/los_sortlink.c:51-76 | On the real ring the backward walk stops before the sentinel and relinks exactly one node, so that the ring stands for the sorted list with the new record inserted. |
| `SortLink.SortLinkAttribute.Add` | kernel/src/los_sortlink.c:121-138 | Adding a record sets its response time to start plus ticks and inserts it. |
| `SortLink.SortLinkAttribute.Delete` | kernel/src/los_sortlink.c:140-158 | Deleting a record, linked or not, leaves the ring without it and the record marked as unlinked. |
| `SortLink.SortLinkAttribute.GetNextExpireTime` | kernel/src/los_sortlink.c:84-119 | The forward walk over the ring answers what the search function over the list answers. |
| `DoubleList.ListAdd` | utils/los_list.h:122-128 | Inserting behind a node of a ring gives the ring of the sequence with the node at that position; next and previous stay inverse. |
| `DoubleList.ListTailInsert` | utils/los_list.h:149-152 | Inserting at the tail appends to the sequence. |
| `DoubleList.ListDelete` | utils/los_list.h:174-180 | Deleting a node gives the ring of the sequence without it and leaves the node unlinked. |
| `DoubleList.ListEmpty` | utils/los_list.h:203-206 | The head points to itself exactly if the sequence is empty. |
| `TaskLists.ListPool.Add` | utils/los_list.h:122-128 | With one node a task shared by every list, adding a task to a list in front changes that list and no other. |
| `TaskLists.ListPool.TailInsert` | utils/los_list.h:149-152 | The same at the tail. |
| `TaskLists.ListPool.Delete` | utils/los_list.h:174-180 | Unlinking a task's node, without being told the list, removes the task from whichever list holds it and leaves all lists else as they were. |
| `ReadyBitmap.FirstList` | kernel/src/los_sched.c:425-437 | While the bitmap agrees with the ready lists it is zero exactly if all are empty, and otherwise its leading zeros number the first one that is not. |
| `KernelObjects.Globals.TopTask` | kernel/src/los_sched.c:425-437 | Read off the bitmap and the intrusive lists, the top task is the head of the first nonempty ready list, or the idle task. |
| `SchedCode.SchedTaskEnQueue` | kernel/src/los_sched.c:278-296 | In place on bitmap, lists, slice and status word: the task becomes ready in front if it has slice left, else at the tail with a new slice. |
| `SchedCode.SchedTaskDeQueue` | kernel/src/los_sched.c:298-307 | In place: a ready task leaves its list, and the bit is cleared exactly if the list is empty then. |
| `SchedCode.SchedTaskExit` | kernel/src/los_sched.c:309-322 | In place: the task leaves its ready or wait list and its deadline. |
| `SchedCode.SchedTaskWait` | kernel/src/los_sched.c:337-348 | In place: the running task is marked as waiting and joins the tail of the wait list. |
| `SchedCode.SchedTaskWake` | kernel/src/los_sched.c:350-363 | In place: the task leaves wait list and deadline and becomes ready unless suspended. |
| `SchedCode.SchedModifyTaskSchedParam` | kernel/src/los_sched.c:365-381 | In place: the priority changes and a ready task changes lists; the answer says whether a reschedule is due. |
| `SwitchCode.ScanTimerList` | kernel/src/los_sched.c:243-276 | The loop over the deadline ring in place ends in the state and with the flag of the scan that `SchedProofs.ScanOutcome` is about. |
| `SwitchCode.TaskSwitch` | kernel/src/los_sched.c:459-483 | The switch in place, on status words, bitmap and lists, is the switch of the state machine; it answers true exactly if the running task changed. |
| `SwitchCode.Schedule` | kernel/src/los_sched.c:528-533 | LOS_Schedule with the pended switch: nothing happens while the scheduler is locked, else the switch. |
| `SwitchCode.TickHandler` | kernel/src/los_sched.c:499-526 | The tick handler in place is the tick of the state machine, and asks for a switch exactly if the scan woke a task and the scheduler is not locked. |
| `TaskCode.TaskCreateOnly` | kernel/src/los_task.c:676-732 | Creating a task without starting it, in place: finished tasks are recycled, a block leaves the free list and is initialised, or the call fails and leaves the state as the source does. |
| `TaskCode.TaskCreate` | kernel/src/los_task.c:741-767 | Creating a task in place also makes it ready and asks for a switch. |
| `TaskCode.TaskResume` | kernel/src/los_task.c:776-815 | Resuming in place: the suspended task becomes ready unless it is still delayed or waiting. |
| `TaskCode.TaskSuspend` | kernel/src/los_task.c:824-872 | Suspending in place: a ready task leaves its list; suspending the running task is refused while the scheduler is locked. |
| `TaskCode.TaskDelete` | kernel/src/los_task.c:890-943 | Deleting in place: the task leaves every list and its block goes to the free list, or to the recycle list if it runs, with the stand-in block taking over. |
| `TaskCode.TaskDelay` | kernel/src/los_task.c:952-976 | Delaying in place: refused in handlers and under the lock, a yield for 0 ticks, else a timed sleep. |
| `TaskCode.TaskPriSet` | kernel/src/los_task.c:1002-1041 | Setting a priority in place, with the reschedule the source asks for. |
| `TaskCode.TaskYield` | kernel/src/los_task.c:1055-1064 | Yielding in place gives up the slice and asks for a switch. |
| `TaskCode.TaskLock` | kernel/src/los_task.c:1073-1080 | Locking the scheduler counts up. |
| `TaskCode.TaskUnlock` | kernel/src/los_task.c:1089-1104 | Unlocking counts down and asks for a switch when the count becomes 0. |
| `TaskCode.RecycleFinishedTask` | kernel/src/los_task.c:126-146 | The loop moves every finished task from the recycle list to the head of the free list, oldest first. |
| `TaskProofs.CreateOK` | kernel/src/los_task.c:741-767 | Creation keeps every scheduler and object invariant whichever of its checks or allocations fails, and leaves the caller able to go on. |
| `TaskProofs.DeleteOK` | kernel/src/los_task.c:890-943 | Deletion keeps every scheduler and object invariant, for another task in any state and for the running task itself, which then asks for a switch with the scheduler unlocked. |
| `SemHistory.ConservedOverRuns` | kernel/src/los_sem.c:217-313 | Over every run that does not delete the semaphore, its count plus the permits granted is its first count plus the successful posts; the count stays within the maximum and is 0 while anybody waits, through timeouts, suspensions and deletions of waiters. |
| `SemCode.SemCreate` | kernel/src/los_sem.c:88-125 | Creation in place, with its failures. |
| `SemCode.SemDelete` | kernel/src/los_sem.c:158-188 | Deletion in place is refused while tasks wait. |
| `SemCode.SemPend` | kernel/src/los_sem.c:217-268 | A pend in place takes a permit, fails, or makes the caller wait, as the state machine does. |
| `SemCode.SemPost` | kernel/src/los_sem.c:277-313 | A post in place hands the permit to the head waiter, or counts up, or overflows. |
| `MuxPriority.AtBaseExactly` | kernel/src/los_mux.c:283-311 | Over every run, with any boosts, hand-overs, timeouts and priority changes: in all its states the tasks that hold no mutex are at their base priority if and only if each release that leaves its owner without a mutex is of a mutex that was taken at the base priority. |
| `MuxPriority.BackAtBase` | kernel/src/los_mux.c:289-291 | At the end of such a run a task that owns no mutex is at its base priority. |
| `MuxPriority.ReleaseExactly` | kernel/src/los_mux.c:262-311 | A final release, with its hand-over to the head waiter, succeeds and takes the mutex off the owner's stack; afterwards those who hold nothing are at base if and only if the mutex was not the owner's last one or had saved its base priority, and the saved priorities are still in order if and only if it had saved the same priority as the one taken last. |
| `MuxPriority.FirstLastReturns` | kernel/src/los_mux.c:289-291 | If every task releases the mutex it took first after all the others, whose order is free, and no holder's priority is set, then each release that empties its stack is of a mutex taken at base. |
| `MuxPriority.InOrderExactly` | kernel/src/los_mux.c:283-311 | Over every run that sets no priority of a holder, the priorities saved by the mutexes a task holds descend from its base priority to its current one in all its states if and only if each final release is of a mutex that saved the same priority as the one its owner took last. |
| `MuxPriority.StackOverRuns` | kernel/src/los_mux.c:186-311 | In particular they do when every task releases its mutexes in the opposite order of acquisition and no holder's priority is set, whatever boosts, timeouts and hand-overs occur. |
| `MuxPriority.DisciplinedReturns` | kernel/src/los_mux.c:289-291 | Such releases therefore bring every task back to its base priority. |
| `MuxPriority.BackAtBaseFromBoot` | kernel/src/los_mux.c:289-291 | The equivalence holds for every legal run from every start-up, where the base priority is the one a task was created with or last set to. |
| `MuxPriority.OutOfOrderLosesBase` | kernel/src/los_mux.c:289-291 | A task that holds two mutexes nobody waits for, the second taken at another priority than its base, and releases the first one first, ends with no mutex and not at its base priority. |
| `MuxStacks.StepMoves` | kernel/src/los_mux.c:186-311 | Each step changes priorities, owners and saved priorities by nothing but what acquisition, boost, hand-over, release, creation and priority setting record. |
| `MuxRun.OutOfOrderRun` | kernel/src/los_mux.c:226-228 | A legal run of seven calls from a start-up that creates two mutexes and a task of priority 10 reaches that failure: the task ends at priority 5 without any mutex. |
| `MuxHistory.DepthOverRuns` | kernel/src/los_mux.c:205-217 | Over every run the lock count of a mutex seen by its owner is its acquisitions, by pend or hand-over, minus its releases; for everybody else the balance is zero. |
| `MuxHistory.WaitersMeanLocked` | kernel/src/los_mux.c:218-234 | While tasks wait for a mutex it is locked by a live task that is not one of them. |
| `MuxCode.MuxCreate` | kernel/src/los_mux.c:85-117 | Creation in place, with its failure. |
| `MuxCode.MuxDelete` | kernel/src/los_mux.c:126-158 | Deletion in place is refused while the mutex is locked or waited for. |
| `MuxCode.MuxPend` | kernel/src/los_mux.c:186-253 | A pend in place takes the mutex, counts a nested lock, fails, or boosts the owner to the caller's priority and waits. |
| `MuxCode.MuxPost` | kernel/src/los_mux.c:262-311 | A post in place counts down, or restores the saved priority and frees the mutex or hands it to the head waiter with count 1 and that task's priority saved. |
| `QueueHistory.FifoOverRuns` | kernel/src/los_queue.c:203-260 | Over every run with writes to the tail only, the messages present at the start followed by those sent are the messages delivered followed by those still unread, in that order, whichever calls blocked and resumed in between. |
| `QueueHistory.NothingLostOverRuns` | kernel/src/los_queue.c:203-260 | Over every run, with writes to either end, no message is lost, duplicated or made up: as multisets, present plus sent equals delivered plus unread. |
| `QueueHistory.StepMessages` | kernel/src/los_queue.c:277-335 | Each step changes the stored messages by exactly what its caller sees: a write that succeeds adds its message at its end, a read that succeeds takes the oldest, everything else changes nothing. |
| `QueueProofs.DeletableIff` | kernel/src/los_queue.c:565-618 | Deleting a queue succeeds exactly if it is in use, both wait lists are empty and no woken reader or writer is unfinished. |
| `QueueProofs.ReadTakesOldest` | kernel/src/los_queue.c:206-231 | A read of a ring holding messages takes the first of them and leaves the rest in order, across the wrap-around. |
| `QueueProofs.WriteAdds` | kernel/src/los_queue.c:206-231 | A write to a ring with room puts the message in front of or behind the stored ones and changes none of them. |
| `QueueMemory.NoEmptyOverRuns` | kernel/src/los_queue.c:203-260 | Over every run no stored message of a queue is empty, so that the reader's copy of the length word is meant. |
| `QueueBytes.RunBytes` | kernel/src/los_queue.c:203-260 | Over every run the byte array of a queue keeps holding its messages, and what is copied out of it are, byte for byte, the messages delivered; with writes to the tail only these are, in order, the messages there at the start and those sent. |
| `QueueBytes.StepSlots` | kernel/src/los_queue.c:277-335 | No step but a deletion changes the number or the size of a queue's slots. |
| `QueueBytes.CreatedEmpty` | kernel/src/los_queue.c:93-156 | A queue just created is in use, empty, and has the slots it was asked for, each with room for the length word. |
| `QueueBytes.NewBytes` | kernel/src/los_queue.c:93-156 | The buffer allocated for a queue just created is its memory: same slots, no message. |
| `QueueMemory.HeadHoldsOldest` | kernel/src/los_queue.c:206-214 | The slot at the head index holds the oldest stored message. |
| `QueueMemory.ReadBytes` | kernel/src/los_queue.c:203-260 | The read on the kernel's globals paired with the byte array of the queue: the caller's buffer receives the very bytes of the oldest message, and array and queue record agree again. |
| `QueueMemory.WriteBytes` | kernel/src/los_queue.c:203-260 | The write on the kernel's globals paired with the byte array stores exactly the caller's bytes as the new message, and array and queue record agree again. |
| `QueueBuffer.RingBuffer.Read` | kernel/src/los_queue.c:242-250 | A read of the byte array returns the bytes and the length written to that slot and touches nothing of the caller's buffer beyond them. |
| `QueueBuffer.RingBuffer.Write` | kernel/src/los_queue.c:251-258 | A write to the byte array stores data and trailing length word in one slot and leaves every other slot as it was. |
| `QueueCode.QueueCreate` | kernel/src/los_queue.c:93-156 | Creation in place, with its size checks and failures. |
| `QueueCode.QueueDelete` | kernel/src/los_queue.c:565-618 | Deletion in place, refused exactly as the state machine does. |
| `QueueCode.QueueRead` | kernel/src/los_queue.c:277-335 | A read in place — check, take or wait, and wake a writer — is the state machine's read. |
| `QueueCode.QueueWrite` | kernel/src/los_queue.c:277-335 | A write in place, to the head or the tail, is the state machine's write. |
| `EventProofs.WriteWakesExactly` | kernel/src/los_event.c:161-176 | A write takes a waiter off the list, without a timeout, exactly if its condition holds on the updated bits. |
| `EventProofs.PassedOverUnsatisfied` | kernel/src/los_event.c:168-170 | For a waiter not satisfied before, testing an OR waiter against the written bits alone is the same as testing it against all bits. |
| `EventCode.EventWrite` | kernel/src/los_event.c:145-187 | A write in place, removing waiters from the list it is walking, wakes the same tasks in the same order and leaves the same list as the walk over a snapshot. |
| `EventCode.EventPoll` | kernel/src/los_event.c:50-73 | A poll answers bits if and only if some bit of the mask is set, for an OR poll, or all bits of a nonempty mask are, for an AND poll; it answers all bits of the mask that are set, and the word loses exactly these if they are to be cleared, else nothing. |
| `EventProofs.PollExactly` | kernel/src/los_event.c:50-73 | These statements determine the answer and the word a poll leaves. |
| `EventCode.EventRead` | kernel/src/los_event.c:97-143 | A read in place checks, polls, and waits with its mask and mode recorded. |
| `EventCode.EventClear` | kernel/src/los_event.c:207-218 | Clearing in place keeps exactly the given bits. |
| `EventCode.EventDestroy` | kernel/src/los_event.c:189-206 | Destroying in place is refused while tasks wait. |
| `EventCode.EventInit` | kernel/src/los_event.c:39-48 | Initialisation in place. |
| `FinishCode.Finish` | kernel/src/los_queue.c:309-330 | The second half of every blocking call, in place: the timeout is reported, or the operation the task was woken for is carried out, or the event polled once more. |
| `KernelCode.CallKernel` | kernel/src/los_task.c:676-1104 | Each kernel call on the globals, whichever it is, changes the state they stand for by the state machine's call and returns the same result. |
| `KernelCode.StepKernel` | kernel/src/los_sched.c:528-533 | Each legal step, with its switch, on the globals is the step of the state machine. |
| `KernelCode.RunKernel` | kernel/src/los_sched.c:528-533 | A loop over any legal run on the globals ends in the state of the run, so every statement about runs is one about the code in place. |
| `KernelCode.PowerOnAndRun` | kernel/src/los_init.c:111-199 | From power-on, with any set-up calls and any legal run after them, the globals stand for the state the machine reaches. |
| `KernelBoot.SetUpCalls` | kernel/src/los_init.c:111-199 | The calls made before the scheduler runs, in place and without a switch, are those of the prepared states. |
| `KernelBoot.IdleTaskCreate` | kernel/src/los_task.c:377-401 | The block at the head of the free list becomes the idle task and is made ready. |
| `KernelBoot.SchedStart` | kernel/src/los_sched.c:439-457 | The top task leaves its ready list and runs; the programming of the timer is stated by `TickProgram.TickTimer.SetNextExpireTime`. |
| `KernelBoot.KernelStart` | kernel/src/los_init.c:111-199 | Allocation and initialisation of blocks, nodes, lists, deadline records and objects, the set-up calls, the creation of the idle task among them and the start of the scheduler leave well-formed globals that stand for the booted state. |
| `SwTimerRuns.ScanHandlesDue` | kernel/src/los_swtmr.c:280-306 | The scan hands exactly the timers due at its start to the handler task, each once and in deadline order, and leaves nothing due at that time. |
| `SwTimerRuns.ScanFates` | kernel/src/los_swtmr.c:258-278 | Of the timers due, a one-shot timer is freed with its next identifier or stopped, a periodic one restarted strictly later; every other timer and its deadline are untouched. |
| `SwTimerRuns.TimersOverRuns` | kernel/src/los_swtmr.c:418-662 | Over every run of timer calls and scans a timer is linked exactly if it is ticking and free exactly if it is unused, and its identifier stays congruent to its slot and below the maximum. |
| `SwTimerRuns.HonestOverRuns` | kernel/src/los_swtmr.c:505-514 | Over every run that starts only created timers, with intervals whose tenth fits 24 bits, the alignment records agree with the intervals. |
| `SwTimerProofs.SearchFinds` | kernel/src/los_swtmr.c:134-175 | The search for a timer to align with finds one of equal interval, or the nearest multiple and the nearest divisor among the comparable ones. |
| `SwTimerProofs.AlignmentOK` | kernel/src/los_swtmr.c:122-194 | With right records, the first count never exceeds the interval, is congruent to the remaining ticks of the larger timer modulo the interval, or equal to the remaining ticks of the smaller one. |
| `SwTimerRuns.StartBeforeCreate` | kernel/src/los_swtmr.c:505-519 | Starting a timer before it is created fails and yet writes its alignment record; after the slot is created with another interval the record is right if and only if the intervals agree. |
| `SwTimerRuns.StaleRecordRun` | kernel/src/los_swtmr.c:505-519 | A legal run from initialisation reaches a state in which an alignment record is wrong. |
| `SwTimerProofs.TimeGetBound` | kernel/src/los_swtmr.c:579-618 | The remaining ticks never exceed the timer's interval while the alignment records are right. |
| `SwTimerTable.InitTable` | kernel/src/los_swtmr.c:335-397 | Initialisation in place gives the first state: every slot unused and on the free list in order. |
| `SwTimerTable.SwtmrTable.Create` | kernel/src/los_swtmr.c:418-480 | Creation in place, with its checks, is the specified one. |
| `SwTimerTable.SwtmrTable.Start` | kernel/src/los_swtmr.c:489-533 | Starting in place — record, stop if ticking, align, link — is the specified start. |
| `SwTimerTable.SwtmrTable.Stop` | kernel/src/los_swtmr.c:542-577 | Stopping in place is the specified stop. |
| `SwTimerTable.SwtmrTable.TimeGet` | kernel/src/los_swtmr.c:579-618 | The remaining ticks are the specified ones. |
| `SwTimerTable.SwtmrTable.Delete` | kernel/src/los_swtmr.c:627-662 | Deletion in place stops a ticking timer and frees the slot. |
| `SwTimerTable.SwtmrTable.Scan` | kernel/src/los_swtmr.c:280-306 | The loop over the deadline ring in place ends in the state of the specified scan and has posted the same handlers in the same order. |
| `SwTimerTable.SwtmrTable.FindAlignPos` | kernel/src/los_swtmr.c:134-194 | The search loop over the ring computes the specified first count. |

## Findings

| finding | shown by | source |
|---|---|---|
| A deadline already reached is overlooked by the next-expiry search when the start time is 0, because 0 stands for "none"; the bound holds if and only if the start time is above 0, or nothing is due at 0, or nothing follows beyond the window. | `TickProgram.TimeZeroIsMissed`, exact condition `SortLink.WithinWindow` | kernel/src/los_sortlink.c:105-107 |
| LOS_SwtmrStart writes the alignment record of a timer that was never created, or was deleted, before it refuses the call. The next creation of that slot keeps the record, and it is right if and only if the two intervals agree. Runs that start only created timers are not affected. | `SwTimerRuns.StaleRecordRun` (a run from initialisation), `SwTimerRuns.StartBeforeCreate`, `SwTimerRuns.HonestOverRuns` | kernel/src/los_swtmr.c:505-519 |
| A task that releases mutexes in the order it took them can end at a boosted priority without holding any mutex. A task that holds none is at its base priority if and only if the release that emptied its stack was of a mutex taken at the base priority; the saved priorities stay in order if and only if each final release is of a mutex that saved the same priority as the one taken last. | `MuxRun.OutOfOrderRun` (seven calls after start-up), `MuxPriority.OutOfOrderLosesBase`, exact conditions `MuxPriority.AtBaseExactly`, `MuxPriority.ReleaseExactly`, `MuxPriority.InOrderExactly` | kernel/src/los_mux.c:289-291 |

## Left out

- Interrupt locking, context switching, stacks and the hardware timer: foreign code, atomic steps and a clock parameter here.
- Allocation: a parameter says whether it succeeds; the memory returned is not modelled.
- The start-up calls other than those of `KernelBoot`: memory, exception, hook and file-system set-up of LOS_KernelInit.
- Boot.Booted: calls other than creations before the scheduler starts (a post, a write to an event, starting a software timer) are not modelled.
- OsQueueMailAlloc and OsQueueMailFree, and queue messages in pointer mode.
- Sleep compensation (LOSCFG_BASE_CORE_SCHED_SLEEP), CPU usage, hooks, traces, the task switch monitor and information calls.
- The fields taskSem and taskMux: only reporting code reads them; the call a task is inside of takes their place.
- The identifier copied into the stand-in block when a running task deletes itself: only the running-task check reads it.
- The wrapping of 16-bit lock counts, 32-bit slices and 64-bit times.
- The memory of a queue before it is first written: slots start as empty messages.
- A caller's message buffer changing while the caller waits: the message is the one it had when it called.
- The failure branch of memcpy_s, which the size checks exclude for messages the queue accepted.
- A second half of a queue call on a queue no longer in use: the invariants exclude it, and the model returns without effect.
- The reload of the tick timer when a software timer is started or stopped, and by OsSwtmrScan: the plan is modelled in `TickProgram` on its own, next to the switch, and not as part of the kernel state; whether a tick ended a slice is a parameter of the tick.
- The handler queue and the handler task of the software timers: the scan reports what it posts; a full queue drops it silently in the source.
- The pointer chain of free software timers: a sequence of slots, since nothing but its head is read.
- Ties, error codes and parameter checks that one branch decides beyond those the calls above return.
- MuxPriority.StackOverRuns: assumes the release discipline and no LOS_TaskPriSet on a holder; `MuxPriority.InOrderExactly` and `MuxPriority.AtBaseExactly` say what holds without it.
- MuxPriority.FirstLastReturns: assumes that no LOS_TaskPriSet is made on a holder, too.
- QueueHistory.FifoOverRuns: for runs that do not delete the queue; one that is deleted and created again starts empty.
- SemHistory.ConservedOverRuns: likewise for runs that do not delete the semaphore.
- RoundRobin.EveryoneGetsATurn: for runs of yields alone from a state in which nothing more urgent than the running task is ready.
- QueueMemory.ReadBytes: pairs one read or write on the globals with the byte array, for messages that fit the caller's buffer.
- QueueBytes.RunBytes: carries the byte array of one queue through a run of the state machine; it is not a field of the globals.
- SwitchCode.TickHandler: the software timer scan, the reset of the response time and OsSchedUpdateExpireTime at its end are not part of it; `SwTimerTable` and `TickProgram` model them on their own.
- TaskCode.TaskCreateOnly: the checks of name, entry and stack size are not modelled.
- EventCode.EventInit: initialising an event that tasks wait for, which the source accepts and which forgets them, is excluded from runs.
- SwTimerTable.InitTable: the handler queue, the timer task and the registration of the scan are not modelled.
- TickProgram.SwitchResponse: takes the deadlines of the software timers as an argument, as they are not part of the kernel state.
