# The dicedev driver, verified

This project models a Linux driver for a dice-rolling PCI device and proves what its design promises. User threads
submit tasks, by `write` on a buffer or by the run ioctl on a context. A single work thread takes the tasks from a
list, binds one of the sixteen slots of the device to the output buffer of the task, checks and translates the command
words of the task, feeds them to the device, and appends a fence. The interrupt handler notes errors and the arrival of
the fence. Contexts and buffers are released while all of this goes on. The driver lets at most one task run at a time,
so that a fault can be charged to the context that caused it; nothing in the code checks that argument, and this
project proves it.

## How the model is built

* `Words`, `Commands`: headers, masks and command encodings on 32-bit words, and the way the device cuts its word
  stream into commands.
* `FeedPort`: the loop that writes a command, and all interleavings of threads that do so under the feed lock.
* `Iterators`, `Translator`: the iterators over the words of a task and the loop that checks and translates them.
* `Slots`, `PageTable`, `ResultReader`: the slot table, the page tables and the reader of a buffer, updated in place.
* `Protocol`: the concurrent driver as a labelled transition system. A critical section under the device lock is one
  step; the interrupt handler is two, with the device running in between; whatever the work thread does without the
  lock is cut at every access to shared state.
* `Evolution`, `Control`, `Signals`, `Binding`, `Counting`, `Lifetime`, `Aim`, `Fates`, `Blame`, `Script`, `Readers`,
  `CutOff`: the parts of the invariant, each with what every kind of step does to it.
* `Invariant`, `WorkerSteps`, `UserSteps`, `DeviceSteps`, `ReleaseSteps`, `Bystanders`, `Runs`: their conjunction, and
  that every step of every run keeps it.
* `Safety`, `Conservation`, `Accountability`, `Teardown`, `Stream`, `Ownership`, `Ordering`, `Results`, `Progress`,
  `Completion`, `Blocking`, `Fairness`: the laws, for every run or every reachable state.
* `Scenario`, `Starvation`, `StraySlot`: runs built step by step that show that the conditions of these laws are needed.
* `WorkThread`, `Program`: the code of the work thread, the interrupt handler and the critical sections as an imperative
  program that writes words to the feed register, with the proof that a round of its loop is a number of steps of the
  transition system and that any sequence of calls leads to reachable states.

## What is assumed of the environment

* The device consumes its commands in the order in which it was fed. Only the commands of tasks raise command and memory
  errors, and the device sets the bit of an error before it consumes a later fence. It raises the fence interrupt when it
  consumes a fence with the awaited value. It goes on consuming commands after an error. It may report a slot error at
  any time; the handler ignores slot errors.
* The device lock and the feed lock are exclusive. Memory accesses by different threads are seen in one order.
* A context is released when its file is closed for the last time, so never during an ioctl on it; a write keeps the
  file of its buffer open.
* The words of a task are those that its iterator hands out. A user may change mapped pages until they are read, and the
  model allows any words.
* The kernel page is 4096 bytes.

## Where the code falls short of its intent

Each of these is kept as the code has it, with the exact condition under which the intended property holds.

* The masks for the slot field leave out its lowest bit, so that a command may name another slot than the one inserted.
  `Words.LowBitNamesAnotherSlot` has such a header and `Translator.InsertNamesSlot` the condition. In every run a command
  is executed through the output buffer of its task exactly when the user left that bit clear or the slot is odd
  (`Ownership.CommandReachesOwner`, `Ownership.DeviceUsesLiveMemory`). Otherwise even the freed buffer of another context
  may be used: `StraySlot.StrayCommandHappens`.
* The test for a missing operand of GET_DIE counts the header itself and never holds, so that the loop asks for a word
  past the end: `Translator.OverrunExactly`, with an example in `Translator.OverrunExample`.
* A run starts at the beginning of the page of its address: `Iterators.RunRefinesFlatView`.
* A run without words at the very end of a buffer looks up a page that does not exist: `Iterators.FirstPageExists`, with
  an example in `Iterators.EmptyRunAtEnd`.
* Writes keep their slots until release, so that the driver can come to a point where it finishes no further task.
  `Blocking.NoMoreExactly` says when: exactly when the task that is due has no slot and no slot is free, and then all
  sixteen are kept for writers (`Blocking.BlockedExactly`). Only a release ends this (`Blocking.BlockedForGood`). While
  the contexts hold fewer than sixteen buffers that were written to it does not happen
  (`Blocking.FewWritersNeverBlock`), and with sixteen it does (`Starvation.StarvationHappens`). Nothing else stands in
  the way of any task: every run in which work thread, device and handler get their turns again and again finishes all
  tasks or comes to be blocked (`Fairness.FairRunsSettle`), and finishes them all while there are fewer than sixteen such
  buffers (`Fairness.FairRunsFinish`).

## Model

| member | source | states |
|---|---|---|
| `Safety.NoCheckFails` | dicedev_wt.c:259-336 | in every reachable state the work thread has what its next statement needs: no null pointer, no empty list, a free and empty slot where it binds, a bound buffer where it runs, a running task where it finishes; and a bound buffer is in the table where it says |
| `Safety.HandlerFindsTask` | dicedev_base.c:315-325 | whenever the handler has read an error or the fence there is a running task, its fence is awaited, and task, context and buffer are not freed |
| `Safety.OutstandingIsRunning` | dicedev_wt.c:301-315 | every command or fence of a task that the device has not consumed belongs to the running task, whose fence is awaited |
| `Safety.UnhandledIsRunning` | dicedev_base.c:309-318 | every fault not yet cleared was raised by the running task, whose fence is awaited |
| `Safety.EventsAreStable` | dicedev_wt.c:187-219 | what the work thread saw when it chose an event still holds when it acts, whatever steps came between |
| `Safety.WorkThreadPointsToLive` | dicedev_wt.c:222-245 | every task the work thread holds, has prefetched or runs is not destroyed, its context is not released past its wait, and its buffer is not freed |
| `Accountability.BlameIsExact` | dicedev_base.c:315-318 | a fault is charged only to the context of the task whose command raised it |
| `Accountability.BlameIsTimely` | dicedev_base.c:309-325 | a fault is charged before the fence of its task is seen, also when error and fence are latched together or between the read and the clear |
| `Accountability.FaultFailsItsContext` | README.md:37-42 | in every run, a fault raised by a command ends in the failure of the context that issued it, by the time its task is no longer awaited, and for good |
| `Accountability.FailureHasCause` | dicedev_base.c:315-318 | no step of any run fails a context except for an unacceptable command or a fault of the context's own running task |
| `Accountability.FailedExactly` | dicedev_wt.c:162-166 | a context has failed exactly when one of its own tasks was rejected or had a fault charged |
| `Accountability.RejectedExactly` | dicedev_wt.c:109-166 | a started task is rejected exactly when its words contain a complete command that is not acceptable |
| `Accountability.WaitMeansDone` | dicedev_base.c:253-270 | a wait for `n` that returns success: at most `n` submissions were unfinished when it looked, and every other task submitted by then was translated, fed, fenced and consumed completely, without rejection or fault |
| `Accountability.WaitForAll` | dicedev_base.c:253-270 | the same for a wait for zero: nothing was in flight and every task is done completely |
| `Conservation.TaskCountIsExact` | dicedev_wt.c:237-239 | the task count of a context is the number of its submissions in flight and of its tasks not destroyed |
| `Conservation.NoTaskIsLost` | dicedev_wt.c:275-331 | every task is in exactly one place, in the list, with the work thread, or destroyed; and a destroyed task was dropped or started, not both |
| `Conservation.DestroyedOnce` | dicedev_wt.c:222-245 | no task is destroyed twice in any run |
| `Ownership.TableIsDeviceView` | dicedev_utils.c:49-81 | the slot table is what the device finds when it cuts, decodes and replays all the words it was fed; it is a partial bijection with the slots the buffers remember, counted by the free counter, and free of freed buffers |
| `Ownership.CommandReachesOwner` | dicedev_wt.c:138-151 | when the device gets to a command of a task, the slot named by its words is bound for the output buffer of that task, with its page table, exactly when the lowest bit of the field was left clear or the slot is odd; otherwise it names another slot |
| `Ownership.DeviceUsesLiveMemory` | dicedev_buffer.c:287-301 | when the device executes a command of a task, the task, its context and its output buffer are not released, and the command goes through the page table of that buffer exactly under the same condition |
| `StraySlot.StrayCommandHappens` | dicedev_wt.c:11-14 | there is a run at the end of which the device is about to execute a command through the slot of a freed buffer of another context |
| `Stream.RequestDecodes` | dicedev_utils.c:17-30 | the words of every request are one frame, read back as the command issued, of a seed its lowest twenty bits |
| `Stream.StreamDecodes` | dicedev_utils.c:17-30 | in every reachable state the device cuts the words it was fed into exactly the commands issued and reads each back as issued |
| `Stream.ReplayIsView` | dicedev_utils.c:49-81 | the page tables that the device binds when it replays its words are those of the bindings issued |
| `Stream.TaskWordsAreTranslation` | dicedev_wt.c:301-315 | the words that the device was fed for a finished task are the words that the translation loop produces from the words of the task and the slot it was given, and its fence |
| `Binding.UnbindUndoesBind` | dicedev_utils.c:49-81 | unbinding undoes binding, in the table, in the counter and in the view of the device |
| `Stream.TargetedExactly` | dicedev_wt.c:123-149 | the slot in the words of a fed command is the one inserted exactly when the user left the lowest bit of the field clear or the slot is odd |
| `Teardown.NothingIsLeft` | dicedev_base.c:62-65 | once a release has seen the task count at zero, nothing of the context is in flight, listed, held, running, queued in the device or pending as a fault |
| `Teardown.CountNeverRises` | dicedev_base.c:53-60 | once the buffers of a context are marked, its task count never rises |
| `Teardown.NeverBoundAgain` | dicedev_base.c:68-87 | after the wait of a release no buffer of the context is bound again |
| `Ordering.FedInOrder` | dicedev_wt.c:31-34 | commands of tasks reach the device in the order in which the tasks were put on the list |
| `Ordering.AtMostOneLateStart` | dicedev_wt.c:281-288 | a context that has failed stays so, and at most one more task of it is started, and none if none was prefetched when it failed; the one that is started is the one that was prefetched then |
| `Ordering.NoStartAfterParsing` | dicedev_wt.c:162-166 | after a step that finds a command not acceptable, the context of the task has failed and no further task of it is ever started |
| `Results.ReaderIsExact` | dicedev_buffer.c:6-14 | in every run the offset never passes the result count, which is the number of results of the tasks destroyed on the buffer in the steps after the last one that bound it |
| `Results.RecordIsHistory` | dicedev_wt.c:237-242 | the record of a buffer lists exactly the tasks destroyed on it by the steps of the run since the last one that bound it |
| `Results.CountedOnce` | dicedev_wt.c:237-242 | none of these tasks is counted twice |
| `Results.NoResetWhileRunning` | dicedev_wt.c:291-299 | a reader goes back only when its buffer is bound, and then no task is running |
| `Progress.MeasureStep` | dicedev_wt.c:275-331 | without a new task, every step keeps a measure of the work left and every action of the work thread and every arriving fence lowers it, even though finishing a task may unbind the buffer of the prefetched one |
| `Progress.BoundedActions` | dicedev_wt.c:259-336 | in any stretch of a run without new tasks there are no more actions than the measure at its start |
| `Blocking.NoSlotExactly` | dicedev_wt.c:198-218 | between tasks, and unless the prefetched task has a slot, no slot is free exactly when each of the sixteen holds a buffer kept for a writer whose context had not failed and whose release has not reached the buffer |
| `Blocking.BlockedExactly` | dicedev_wt.c:198-218 | a task that is due is blocked exactly when its buffer has no slot and all sixteen are kept so |
| `Blocking.FewWritersNeverBlock` | README.md:46-56 | while the contexts hold fewer than sixteen buffers that were written to, no task is blocked |
| `Blocking.BlockedForGood` | dicedev_wt.c:198-218 | in every run, once the task that is due is blocked, this stays so and no task is destroyed until a step of a release |
| `Blocking.NoMoreExactly` | dicedev_wt.c:187-219 | while tasks are left, no sequence of steps of work thread, device and handler destroys another one exactly when the task that is due is blocked |
| `Completion.ChoiceIsBetter` | dicedev_wt.c:187-219 | unless all tasks are done or the work thread starves, some step of work thread, device or handler is possible and brings the end closer |
| `Completion.EverythingCanFinish` | dicedev_wt.c:259-336 | from every reachable state the work thread and the device alone can finish all tasks, or come to starve |
| `Fairness.SweepIsProductive` | dicedev_wt.c:187-219 | call a stretch of a run a sweep if the work thread takes six steps in it, the device consumes what it had been fed at its beginning, and then the handler runs; in every sweep, whatever else happens but submissions, less is left to do at the end, or all tasks were done or the task due blocked on the way |
| `Fairness.FairRunsSettle` | dicedev_wt.c:259-336 | in every run, a stretch without submissions that has more sweeps than the measure of the work left comes to a state in which all tasks are done or the one due is blocked |
| `Fairness.FairRunsEnd` | dicedev_wt.c:259-336 | without releases that is so at the end of the stretch |
| `Fairness.FairRunsFinish` | README.md:46-57 | whatever is released meanwhile, if the contexts hold fewer than sixteen buffers that were written to, all tasks are done at the end, and the count of each context is that of its submissions in flight |
| `Fairness.SweepIsPossible` | dicedev_wt.c:187-219 | every run can go on with a sweep, without submissions and releases |
| `Blocking.FewWritersCanFinish` | README.md:46-56 | from every reachable state with fewer than sixteen such buffers the work thread and the device alone can finish all tasks |
| `Starvation.StarvationHappens` | README.md:51-57 | with sixteen buffers that were written to and are held by their contexts there is a run after which the work thread starves, with the context of the waiting task open and not failed, and no step but a release ever destroys another task |
| `Starvation.BlockedBeforeStarving` | dicedev_wt.c:189-219 | a task may be blocked for good while it is still on the list and the work thread does not starve yet |
| `Runs.StepInv` | dicedev_wt.c:248-336 | every step of every thread and of the device keeps the invariant |
| `Runs.RunInv` | dicedev_wt.c:248-336 | the invariant holds in every state of every run |
| `Runs.RunGrows` | dicedev_base.c:294-296 | along every run logs only grow, identities of buffers stay, and failures, release phases and frees are never undone |
| `WorkThread.EventSteps` | dicedev_wt.c:187-219 | the looking-around steps of the transition system choose the event that the code chooses |
| `WorkThread.RoundFollows` | dicedev_wt.c:259-336 | a round of the loop is a number of steps of the transition system |
| `Program.Driver.constructor` | dicedev_wt.c:248-258 | the program starts in the first state of the transition system, with nothing in the feed register |
| `Program.Driver.RunRounds` | dicedev_wt.c:259-336 | any number of rounds of the loop follow by steps of the transition system, lead to a reachable state, and keep that the words in the feed register are those of the commands issued and the words of every task those its iterator hands out |
| `Program.Driver.Serve` | dicedev_wt.c:259-336 | rounds, interrupts, writes and what the device does, in any order, lead to reachable states only, with the same things kept |
| `Program.Driver.ReleaseBuffer` | dicedev_wt.c:226-234 | first half of the destruction of a task: exactly the step of the transition system that unbinds the buffer of a run or of a failed context, and no other |
| `Program.Driver.RunTask` | dicedev_wt.c:95-167 | running a task starts it, feeds the commands of its translation, adds up their results, and fails its context exactly when a command is not acceptable |
| `Program.Driver.FeedCommands` | dicedev_wt.c:109-158 | the loop reads the words of the task through its iterator; what it writes to the feed register are the words of exactly the commands of the translation, in order, with the slot; it sums their published results, and stops as the translation does |
| `Program.Driver.Interrupt` | dicedev_base.c:303-330 | the handler is its two steps of the transition system, and its run-time checks hold |
| `Program.Driver.MarkBuffers` | dicedev_base.c:53-60 | the loop marks exactly the buffers of the context |
| `Program.Driver.CloseBuffers` | dicedev_base.c:68-87 | the loop over the list of the context leads to a reachable state in which every buffer of the list is unbound and off it, and none is left on it |
| `Program.CloseSteps` | dicedev_base.c:68-87 | closing the buffers of a list is so many steps of the transition system; it closes those and leaves all others as they were |
| `Program.ListIsClosed` | dicedev_base.c:68-87 | afterwards the condition for freeing the context holds |
| `Program.Driver.WriteBuffer` | dicedev_buffer.c:55-123 | a write is refused exactly when its buffer is marked, is put on the list, with its words as source, exactly when it was not and its words could be copied, and leaves no trace otherwise; the new state is reachable unless the words end in a bare GET_DIE header |
| `Program.AbortUndoesBegin` | dicedev_buffer.c:115-121 | giving up a submission restores the state before it |
| `Program.WriteSteps` | dicedev_buffer.c:69-113 | a write is two steps of the transition system, after which its context counts one more task and has in flight what it had |
| `Translator.ParseMeaning` | dicedev_wt.c:109-166 | every stream splits into acceptable items and a rest that is empty, offending or a bare GET_DIE header; the loop feeds exactly the commands among the items and ends accordingly |
| `Translator.ParseUnique` | dicedev_wt.c:109-166 | whichever way a stream is split like that, the outcome is that of the split |
| `Translator.OverrunExactly` | dicedev_wt.c:116-121 | the loop asks for a word past the end exactly when acceptable items are followed by a bare GET_DIE header |
| `Translator.OverrunExample` | dicedev_wt.c:116-121 | the shortest such stream |
| `Translator.ParseCmdsOk` | dicedev_wt.c:123-147 | every command fed passed its checks |
| `Translator.InsertNamesSlot` | dicedev_wt.c:138-149 | the inserted slot is the one named exactly when the lowest bit of the field was clear or the slot is odd |
| `Translator.RunLoop` | dicedev_wt.c:109-158 | for all words, also those that it would read past, the loop writes the words of exactly the parsed commands, counts what they publish, and ends with the verdict of the translation |
| `Translator.ReadCommand` | dicedev_wt.c:110-157 | one round reads one item and moves the iterator by its length |
| `Iterators.TaskIterator.constructor` | dicedev_wt.c:63-80 | the iterator starts at its first word |
| `Iterators.TaskIterator.NextWord` | dicedev_wt.c:38-60 | the `k`-th call hands out word `k` of the task, across pages and within bounds, and the run-time check cannot fail |
| `Iterators.RunRefinesFlatView` | dicedev_wt.c:69-74 | a run hands out the words asked for in every buffer exactly when its address is page aligned or it has no words |
| `Iterators.HandedInBounds` | dicedev_base.c:202-215 | every page that an accepted run uses exists |
| `Iterators.FirstPageExists` | dicedev_wt.c:70-72 | the page looked up first exists exactly when the run has words or starts before the end of the pages |
| `Iterators.EmptyRunAtEnd` | dicedev_wt.c:70-72 | an accepted run without words whose first page does not exist |
| `FeedPort.Port.FeedCmd` | dicedev_utils.c:17-30 | the loop writes the words of a command in order |
| `FeedPort.DeviceSeesCalls` | dicedev_utils.c:17-30 | for every interleaving of feeding threads the device finds exactly the calls made, in the order of the lock |
| `Commands.FramesOfFlatten` | dicedev_utils.c:17-30 | a stream of whole commands and a part of one is cut back into exactly these |
| `Commands.BindRoundTrip` | dicedev_utils.c:59-62 | a bind command is read back with its slot, the lowest twenty bits of its seed, its mask and its full address |
| `Commands.UnbindRoundTrip` | dicedev.h:89 | an unbind command is read back with its slot |
| `Commands.FenceRoundTrip` | dicedev.h:86 | a fence command is read back with its value |
| `Words.FenceHeaderRoundTrip` | dicedev.h:86 | a fence header keeps its value exactly when the value fits in 28 bits |
| `Words.InsertGetDieSlotExact` | dicedev_wt.c:11 | the GET_DIE slot field names the inserted slot exactly when its lowest bit was clear or the slot is odd |
| `Words.InsertNewSetSlotExact` | dicedev_wt.c:13 | the same for NEW_SET |
| `Words.InsertGetDieSlotKeeps` | dicedev_wt.c:138 | insertion changes the slot field of a GET_DIE header and no other bit |
| `Words.InsertNewSetSlotKeeps` | dicedev_wt.c:149 | insertion changes the slot field of a NEW_SET header and no other bit |
| `Words.LowBitNamesAnotherSlot` | dicedev_wt.c:11 | a header that passes the check and ends up naming another slot |
| `Words.UserMacroTakesSlot` | dicedev.h:84-85 | headers made by the user macro always take the slot, and become the header of the full macro |
| `Words.PtEntryRoundTrip` | dicedev_pt.c:9-12 | an entry is present, and gives its address back exactly when the address is page aligned and below 2^40 |
| `Words.BindAddressRoundTrip` | dicedev_utils.c:61-62 | the two address words of a bind command recover the address |
| `Slots.DeviceSlots.GetSlot` | dicedev_utils.c:33-46 | finds the first empty slot, or -1 when the counter is zero |
| `Slots.DeviceSlots.BindSlot` | dicedev_utils.c:49-65 | table, counter, buffer and command change together, and the table stays a partial bijection |
| `Slots.DeviceSlots.UnbindSlot` | dicedev_utils.c:68-81 | the buffer leaves the table and the counter rises with the command fed, and the table stays a partial bijection |
| `PageTable.Table.Init` | dicedev_pt.c:42-94 | succeeds exactly when all allocations are granted, and then the table is complete and owns exactly its new allocations; otherwise the live allocations are as before |
| `PageTable.Table.FillPages` | dicedev_pt.c:68-87 | the loop over the pages, with its rollback |
| `PageTable.Table.Dismantle` | dicedev_pt.c:79-90 | the rollback frees each page present once, and the rest of the table |
| `PageTable.Table.Free` | dicedev_pt.c:97-120 | frees exactly the allocations of the table, none twice |
| `PageTable.BuildAndFree` | dicedev_pt.c:42-120 | building and freeing leaves the live allocations as they were |
| `PageTable.EntriesFit` | dicedev_base.c:148 | a size is accepted exactly when its pages fit into the table |
| `ResultReader.FlatAt` | dicedev_buffer.c:133-141 | page and index of an offset give the result at that offset of the flat buffer |
| `ResultReader.Reader.ReadResult` | dicedev_buffer.c:128-144 | returns the result at the offset if the buffer has it, and moves on in any case |
| `ResultReader.Reader.Read` | dicedev_buffer.c:157-183 | returns nothing exactly when no result is available |
| `ResultReader.Reader.ReadMany` | dicedev_buffer.c:147-184 | any number of reads returns what a flat buffer would |
| `ResultReader.ReadsInOrder` | dicedev_buffer.c:128-144 | reads of available results return them all, in order |

## Left out

- The drain after a stop request, the park and suspend path, and PCI, character device and module set-up: runs are considered up to the stop.
- The restart of the device: no code sets the flag that asks for it.
- Sleeping and wake-ups: a wait is a step that is possible once its condition holds, so that progress is about steps that are possible and not about threads that are woken.
- The wake-up on the error path of a write, which goes through a task pointer not assigned yet: only the count is modelled.
- File descriptors, reference counts and copies between user and kernel: the model keeps that a context holds one reference to each of its buffers until release, and any copy may fail by giving up a write.
- Allocation failures and argument checks of the run ioctl other than its range check: a run that is refused has no effect; a run may also be submitted to a context that failed just after the check, and the model allows that always.
- Tasks whose words end in a bare GET_DIE header: the code reads past the words of such a task and what it finds there is not modelled, so that runs have none of them; `Translator.OverrunExactly` says which they are.
- The busy wait for room in the command queue: the device is assumed to drain it.
- The number of results per die that the translation loop computes and does not use; the published count is the masked and unshifted field, as in the code.
- The values of dice, the seed increment register, the fields `seed_chg` and `usage_count`, and the lock of a context, which nothing depends on.
- Counters of fixed width: task and result counts are unbounded integers, proved never to be negative nor to be overtaken by the offset.
- The check of `allowed` on creation against 2^33 - 1 and its cut from 64 to 32 bits (dicedev_base.c:153, dicedev_types.h:96): a buffer has any 32-bit mask.
- The first page lookup of a run without words at the very end of a buffer, which is out of bounds (`Iterators.FirstPageExists`): runs of the transition system include such tasks, and there they read nothing.
- Program.Driver.WriteBuffer: for words that end in a bare GET_DIE header only the new state is stated, and not that it is reachable; a length that is not a multiple of four is refused by the code before it looks at anything, and is not modelled.
- Program.Driver.RunRounds: rounds with nobody else at work, since interference within a round is what the transition system is for.
- Program.Driver.Serve: calls one after the other; releases are not among them, and writes of words that end in a bare GET_DIE header are skipped.
