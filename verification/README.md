# Frostbyte in Dafny

Frostbyte is a small ARM64 kernel with a shell. This project models the parts of it that keep
state and proves what they keep.

## What is modelled

**Processes, scheduler, signals.** `ProcessModel` describes the process table and the four
queues as a value and every operation as a function on it; `KernelImage.Kernel` is the kernel
as the C code has it, with a table, one link per process shared by four intrusive lists, and
loops, and each of its methods is proved to compute the function. The invariant
(`ProcessInvariant`) is kept by every system call and interrupt (`KernelSteps`, `ProcessCalls`,
`ProcessWait`), and `KernelRuns` draws the conclusions for whole runs from boot. What wake-ups,
signals, exit, stop and continue do to each process is stated separately from the loops that do
it (`WakeupProofs`, `ProcessEffects`, `ExitEffects`, `StopEffects`, `KillEffects`, `JobEffects`), and so
is what each system call and interrupt does to the whole state (`KillSteps`, `HandlerSteps`,
`SignalOutcomes`, `ForegroundSlot`, `FosterEffects`, `StepEffects`). Statuses are read back with the macros of the C
library (WIFEXITED and its kin of `<sys/wait.h>` in POSIX). A system call or interrupt
is one step up to its next call of the scheduler; wait is a step per pass of its loop. The state
carries history: the stamp of each process's entry into the ready queue, the number of calls of
the scheduler, and the PIDs reaped.

In two places the C code leaves its own queue discipline: SIGCONT for a stopped process that is
no daemon, while the foreground process is neither ready nor the last sleeper, and `move_to_fore`
on a running or dead process. There the model sets `faulted` and stops. Two lemmas, the first of
them on the links of the lists (`PauseLinks`), say that the queues survive exactly when the guard
holds, and `WitnessRuns` reaches both branches from boot. A foreground process that has its child
continued and then waits for it is the last sleeper: it is pushed again, which changes no link,
and the run goes on (`StopEffects.WaiterIsPaused`).

`Uncatchable` shows that no run takes SIGKILL or SIGSTOP away from the kernel's handlers, and `Family`
that nobody becomes its own ancestor. `Foreground` and `ForegroundRuns` follow the foreground
pointer: they say for every step when it is left with a dead process, and when a process that is
no daemon runs with nobody in the foreground. `LostWakeups` says when a process that a signal has
pulled out of its sleep goes back to it, `FailedFork` what a failed fork means for wait.

**Pages.** `Paging`, `MemoryManager` and `PageMemory` work on words of memory and the bit
arithmetic of the source: the free list through the pages themselves, the three-level walk, and
the operations on address spaces. `PageOwnership`, `AddressSpaces` and `SystemRuns` follow the
pages of all processes over whole runs. The lower tables sit at fixed places behind the top one,
so an address space is confined to one region of 1 GB; a lemma shows what a second region does.

**Files.** `FatReads` and `FileReads` read cluster chains (FAT16, section "FAT Data Structure" of
the Microsoft FAT specification; the code takes 0xFFFF alone for the end mark); `FatLayout` says where
the tables, the root directory and the clusters lie. `OpenFiles`,
`FileCounts`, `FileRuns` and `FileTables` count references; `FileWitness` is a run that loses one.

**The user boundary.** `Trampoline` runs user signal handlers through the kernel's frames and the
assembly proxy; `ExecArguments` carries arguments from one image to the next; `LineEditor` and
`CommandWords` are the shell's input; `Numbers` prints and parses; `Environment` is the
environment table. `TypedLines` says what the keys put into a line.

## Where the code differs from what is said about it

- The comment on SIGKILL (process/signal.c:105) says that it kills the children too. They are
  handed to init first: the signal reaches them if and only if there is no living init
  (`KillEffects.KillReachesChildrenIff`; `WitnessRuns.KillReachesGroup` is a run where it does).
- SIGCONT for a stopped process that holds the foreground itself puts it to sleep until the foreground
  is given back, although it should resume where it was stopped (`StopEffects.ContinueReturnsIff`). A
  run gets there when a child in the foreground exits while its parent is stopped
  (`ForegroundWitness.ContinueStrands`).
- The comment on close (fs/file.c:324) says that a file entry is freed with its last reference. Its
  inode stays set, so that it is never given out again (`FileRuns.OpenCloseTakesEntry`); and a close
  of a shared entry leaves the descriptor in place (`FileCounts.CloseKeepsCountsIff`).
- A failed fork frees the tables and the program page; the slot stays INIT and keeps the environment
  page for good (`SystemRuns.ReachableOwnership`).
- exec goes on from the argument count the process already has (`ExecArguments.StringsFitIff`).
- insert alone adds another entry for an empty key each time (`Environment.EmptyKeyTwice`). setenv
  turns an empty name away, so that hashes stay distinct on every sequence of calls
  (`Environment.RunRefinesMap`).
- read_file (fs/file.c:219) means to cut a read at the end of the file; an offset and a size whose sum
  wraps around are not cut (`FileReads.WrappedSum`).
- A keyboard read compares the caller with the foreground process (irq/syscall.c:104) without asking
  whether there is one. `ForegroundRuns.LonelyIff` says after which steps there is none: the holder
  has forked (`WitnessRuns.NobodyInForeground`), or the pointer leads to a dead process, because a
  stopped holder was killed (`ForegroundWitness.KillLeavesDeadHolder`) or ended with its parent, or a
  holder gave way to a dead parent. The scheduler claims the foreground only if the pointer is NULL.
- A process asleep in wait that gets a signal which is dropped misses the exit of its child: it keeps
  its event and goes back to sleep (`LostWakeups.SleepsAgainIff`, `ForegroundWitness.SignalCostsWakeUp`).
- The slot of a failed fork counts as a child for good, so that wait(-1) never again says
  that there is no child (`FailedFork.FailedForkKeepsWaiting`).

## Model

| member | source | states |
|---|---|---|
| IntrusiveLists.PushBack | lib/lib.c:25-36 | The list runs through its old nodes and then the new one; a node that is already on the list becomes the last one, and what followed it is lost; a stale tail of an emptied list does no harm; links outside the list stay |
| IntrusiveLists.PopFront | lib/lib.c:38-51 | The first node comes off; the rest stays in order |
| IntrusiveLists.Remove | lib/lib.c:53-82 | Exactly the given node comes off, found or not; the others stay in order |
| IntrusiveLists.Contains | lib/lib.c:94-106 | True if and only if the node is on the list |
| IntrusiveLists.RemoveEvt | lib/lib.c:108-135 | The first waiter on the event from the cursor on comes off; the cursor is NULL after a hit, so that prev is never a null pointer; a list left empty may keep a stale tail |
| KernelImage.Kernel.constructor | process/process.c:91-131 | Boot: the idle process runs, init is ready, the other slots are free, the lists are empty |
| KernelImage.Kernel.GetProcess | process/process.c:235-247 | The first occupied slot with the PID, or none |
| KernelImage.Kernel.FindJob | process/process.c:249-263 | The first occupied slot with the job number and the parent, or none |
| KernelImage.Kernel.WakeUp | process/process.c:400-417 | The loop over the intrusive wait list, with its cursor, has the effect of the specification (see WakeUpExact), and it ends |
| KernelImage.Kernel.Deliver | process/process.c:799-810 | One signal: stop and continue discard each other, a sleeper is pulled onto the ready queue |
| KernelImage.Kernel.KillGroup | process/process.c:772-795 | The loop of a group signal has the effect of the specification (see KillGroupExact) |
| KernelImage.Kernel.KillAll | process/process.c:722-766 | The loop of a broadcast of any signal but SIGHUP, with the extra marks of SIGTERM |
| KernelImage.Kernel.Kill | process/process.c:718-813 | The choice between broadcast (of any signal but SIGHUP), group and single signal, and the error code for a bad signal or PID |
| KernelImage.Kernel.SwitchParent | process/process.c:365-383 | The loop that hands children over has the effect of the specification (see SwitchParentExact) |
| KernelImage.Kernel.EndJobs | process/process.c:435-449 | The walk over the suspended list while it takes jobs off that list visits every job of the list once |
| KernelImage.Kernel.Exit | process/process.c:419-463 | All parts of exit up to its call of the scheduler (see ExitExact) |
| KernelImage.Kernel.Terminate | process/signal.c:92-104 | The default of SIGHUP, SIGINT, SIGABRT and SIGTERM: off the queue, then exit with the signal in the status |
| KernelImage.Kernel.KillHandler | process/signal.c:105-145 | The default of SIGKILL, with its order of effects |
| KernelImage.Kernel.StopHandler | process/signal.c:146-183 | The default of SIGSTOP and SIGTSTP (see StopExact) |
| KernelImage.Kernel.ContinueHandler | process/signal.c:184-223 | The default of SIGCONT (see ContinueExact), where the foreground process can be paused (see ContinueFaultsIff) |
| KernelImage.Kernel.PauseForeground | process/signal.c:204-211 | The foreground process sleeps until it is given back: it comes off the ready queue, or is the last on the wait list already and is pushed once more, and is then on the wait list once |
| KernelImage.Kernel.Push | lib/lib.c:25-36 | push_back on one of the four lists that share the links: the other three do not change |
| KernelImage.Kernel.Handle | process/signal.c:54-74 | Default handlers run in the kernel, user handlers are reset, a caught SIGCONT still continues |
| KernelImage.Kernel.CheckPending | process/signal.c:34-86 | The loop over all signals, with early exit for the dead, deferral for the stopped, clearing by exclusive or, and the return to sleep |
| KernelImage.Kernel.CheckSuspended | process/process.c:157-166 | The walk over suspended jobs with a link saved beforehand visits exactly the jobs that were on the list |
| KernelImage.Kernel.CheckReady | process/process.c:168-181 | The loop over the ready queue ends and leaves a checked process at the head, or the queue empty |
| KernelImage.Kernel.Dispatch | process/process.c:174-198 | The head runs, or the idle process; an unclaimed foreground is claimed; shutdown is requested when nothing is left |
| KernelImage.Kernel.Schedule | process/process.c:152-201 | The three parts of the scheduler together |
| KernelImage.Kernel.Timer | process/process.c:203-219 | A timer interrupt: sleepers wake, the running process goes to the back of the queue, the next one is chosen |
| KernelImage.Kernel.Sleep | process/process.c:385-398 | The caller joins the wait list under its event and somebody else runs |
| KernelImage.Kernel.ExitCall | irq/syscall.c:55-59 | exit as a system call, with the status shifted and cut to a byte |
| KernelImage.Kernel.ControlKey | io/keyboard.c:54-83 | Ctrl-C and Ctrl-Z signal the foreground process if there is a living one |
| KernelImage.Kernel.MoveToFore | process/process.c:265-283 | The effect on the queues and the foreground for a process that is ready, asleep or stopped |
| KernelImage.Kernel.MoveToBack | process/process.c:285-294 | A stopped job becomes a daemon and waits for input as one |
| KernelImage.Kernel.RegisterHandler | process/signal.c:229-240 | The handler of one signal of the caller changes, and never that of SIGKILL or SIGSTOP, which therefore stay with the kernel on every run (Uncatchable.ReachableArmed) |
| KernelImage.Kernel.FindUnusedSlot | process/process.c:30-44 | The first free slot after the idle process, or none |
| KernelImage.Kernel.Fork | process/process.c:562-610 | A child in the first free slot with the next PID, ready only if its memory could be copied; otherwise the slot stays INIT |
| KernelImage.Kernel.BecomeJob | process/process.c:628-641 | "&" gives the next job number of a living parent, makes a daemon, gives up the foreground |
| KernelImage.Kernel.Exec | process/process.c:612-680 | The process side of exec; a program that cannot be loaded ends the process |
| KernelImage.Kernel.Foster | process/process.c:493-506 | Init takes over zombies whose parent is gone or waits for somebody else |
| KernelImage.Kernel.LookForAny | process/process.c:507-519 | The first zombie child in table order, and whether there is any child |
| KernelImage.Kernel.Wait | process/process.c:470-560 | One pass of wait: stopped child, fostering, search, reaping, or sleep |
| WakeupProofs.WakeUpExact | process/process.c:400-417 | The waiters on the event, in order, join the back of the ready queue with state READY and no event; the others wait on in order; nothing else changes |
| WakeupProofs.InvWakeUp | process/process.c:400-417 | Waking keeps the invariant of the queues |
| ProcessEffects.KillGroupExact | process/process.c:772-795 | Exactly the living children of the sender have the signal pending (and its opposite discarded); the sleepers among them are on the ready queue in table order; all others are untouched |
| ProcessEffects.KillAllExact | process/process.c:722-741 | The same for a broadcast: exactly the living processes other than init, the idle process and the sender; for any signal but SIGHUP |
| ProcessEffects.SwitchParentExact | process/process.c:365-383 | Exactly the children of one process become the other one's; only job numbers change besides |
| ProcessEffects.DeliverExact | process/process.c:799-810 | A single signal: the target has it pending, comes off the wait list if it slept, and nobody else is touched |
| KillSteps.BroadcastReaches | process/process.c:722-766 | kill with PID -1, any signal but SIGHUP: exactly the living processes from slot 2 on except the sender have the signal pending and its opposite discarded, sleepers among them join the ready queue in table order; init and the idle process have SIGTERM pending besides if that is the signal |
| KillSteps.GroupReaches | process/process.c:772-795 | kill with PID 0: exactly the living children of the sender |
| KillSteps.SingleReaches | process/process.c:796-812 | kill with any other PID: the one occupied slot with it, and nobody else; without one nothing changes |
| KillSteps.KillCallReaches | irq/syscall.c:166-172 | kill as a system call, for every PID and signal: which of the three it is, and that a bad signal and init as the target change nothing |
| KillSteps.ControlKeyReaches | io/keyboard.c:54-83 | A control key reaches the living process in the foreground and nobody else |
| ForegroundSlot.ReachableControlKey | io/keyboard.c:54-83 | The same on every run from boot: the idle process never holds the foreground |
| HandlerSteps.RegisterExact | process/signal.c:229-240 | signal(): the given handler is stored for a signal that is in range and can be caught, every other handler, field and slot stays; any other call changes nothing |
| HandlerSteps.RegisteredIsCaught | process/signal.c:42-69 | After a user handler has been registered a pending signal of that number is stacked for it |
| HandlerSteps.ExecExact | process/process.c:621-675 | exec of a program that loads leaves no old handler and no pending signal; "&" makes a daemon with the next job number of a living parent and gives up the foreground; otherwise nothing else changes |
| HandlerSteps.ForkedExact | process/process.c:562-610 | fork: the whole entry of the child in both outcomes; every other entry stays |
| SignalOutcomes.CheckOutcome | process/signal.c:34-86 | A check of a ready or sleeping process: the first pending signal that the kernel ends or stops it for decides and is in the status; without one it lives on with no signal pending |
| SignalOutcomes.StoppedOutcome | process/signal.c:44-62 | A check of a stopped process without SIGKILL pending: it is continued if and only if SIGCONT is pending and not ignored, caught or not; without it nothing changes |
| SignalOutcomes.EndsReadBack | process/process.c:423-423 | The status of an ended process reads back as the low byte given to exit, or as the signal |
| SignalOutcomes.StopsReadBack | process/signal.c:158-158 | A stop changes the low seven bits of the status only, and reads back as one unless bit 7 was set |
| SignalOutcomes.ContinuesReadBack | process/signal.c:214-216 | A continuation likewise |
| StepEffects.StepSchedules | process/process.c:152-219 | Each step that calls the scheduler is its part before the call, then schedule |
| StepEffects.TickExact | process/process.c:203-219 | A timer tick: exactly those asleep in the sleep call are woken; unless nobody is ready then, the running process goes behind everybody, the idle one on no queue, and schedule is called |
| StepEffects.InputWakes | io/keyboard.c:85-88 | A key wakes exactly those who wait for the keyboard |
| StepEffects.SleepExact | process/process.c:385-398 | sleep: the caller is last on the wait list under its event before schedule is called, nobody else is touched |
| StepEffects.ExitWakes | process/process.c:457-463 | After an exit nobody waits for a change of state and, unless the process was a daemon, nobody is paused |
| StepEffects.StopWakes | process/signal.c:175-181 | After a stop likewise |
| StepEffects.KillWakes | process/signal.c:130-143 | After SIGKILL likewise, the paused ones only if the target was not stopped |
| StepEffects.ForegroundExact | process/process.c:265-283 | Bringing a job to the foreground: what it does to a stopped job and to one that is ready or asleep, and that nobody else changes |
| StepEffects.NoJobNoChange | process/process.c:249-263 | Without such a job neither call changes anything |
| StepEffects.BackgroundExact | process/process.c:285-294 | Sending a job to the background: a stopped one becomes a daemon that waits for input as one, any other is left alone |
| StepEffects.ShutdownIff | process/process.c:186-191 | Shutdown is requested if and only if the idle process has been told to end and no process is ready or asleep |
| JobEffects.ExitTellsGrandchildren | process/process.c:439-444 | When a process exits, the living children of its stopped children have SIGTERM pending |
| JobEffects.JobsRenumbered | process/process.c:373-380 | Running jobs that are handed over get the next numbers of the new parent in table order, and its count grows by as many |
| JobEffects.ContinueTells | process/signal.c:217-220 | A living parent has SIGCHLD pending when its child goes on |
| ExitEffects.EndJobsExact | process/process.c:435-449 | All stopped children of a dying process are dead and among the zombies, in order; parents and foreground are untouched |
| ExitEffects.ExitExact | process/process.c:419-468 | The dead process keeps PID and status and is the last zombie; a living parent has SIGCHLD and the status; a living init takes the children; everybody waiting for a change of state is ready; exactly the stopped children die with it; the foreground passes on |
| SignalProofs.EndsExit | process/process.c:419-463 | exit keeps the invariant and never revives anybody |
| StopEffects.StopExact | process/signal.c:146-183 | A stopped process is last on the suspended list with its event kept; its parent has SIGCHLD, PID and status, and it has a job number |
| StopEffects.ContinueExact | process/signal.c:184-223 | A continued process is ready, or waits on for its event, unless it holds the foreground itself: then it sleeps until it gives way to itself; one that is no daemon takes the foreground and another holder sleeps until it is given back |
| StopEffects.ContinueReturnsIff | process/signal.c:184-223 | A continued process comes back to the queue and the event it had if and only if it is a daemon, or does not hold the foreground, or was paused for somebody else before |
| ForegroundWitness.ContinueStrands | process/process.c:453-456 | Ten steps from boot: the foreground is handed back to a stopped parent, which is continued and then sleeps on itself, with nothing ready to run |
| StopEffects.ContinueFaultsIff | process/signal.c:184-223 | SIGCONT for a stopped process meets the branch that breaks the queues if and only if the process is no daemon and somebody else is in the foreground who is not ready and not the last sleeper once the process has been resumed |
| StopEffects.WaiterIsPaused | process/signal.c:204-211 | A foreground process that falls asleep before its stopped child is continued is paused in place: the child is ready in the foreground and the wait list is intact |
| StopEffects.ContinueUndoesStop | process/signal.c:146-223 | Stop and then continue brings a process back to the queue and the event it had: a process that is stopped has given up the foreground, so that it is not paused by itself |
| StopEffects.StopGivesWay | process/signal.c:170-174 | A process that is stopped no longer holds the foreground, which passes on as at an exit |
| KillEffects.SlayReachesNobody | process/signal.c:134-140 | With a living init the group signal of the SIGKILL handler reaches nobody, because the children have been handed over before |
| KillEffects.SlayReachesChildren | process/signal.c:134-140 | Without a living init it reaches all living children |
| KillEffects.KillReachesChildrenIff | process/signal.c:105-145 | SIGKILL for a process reaches a living child of it if and only if there is no living init |
| WitnessRuns.KillReachesGroup | process/signal.c:134-140 | Six steps from boot: init has exited, and the handler's group signal reaches a grandchild |
| KillEffects.KillExact | process/signal.c:105-145 | SIGKILL ends a ready, sleeping or stopped process and no other: last zombie, status with the signal, a living parent has SIGCHLD and that status; the foreground passes on unless the target was stopped, and stays with the dead process then |
| KillEffects.KillResets | process/signal.c:136-140 | The entry of a killed process is reset: its event is its PID, it is no daemon |
| StopEffects.BackgroundJob | process/process.c:265-294 | A job sent to the background and continued waits as a daemon, is not woken by keys and leaves the foreground alone; brought back it is ready to read keys |
| PauseLinks.PauseKeepsListsIff | process/signal.c:204-211 | On the links: pausing the foreground process leaves four lists that run through exactly the processes in their state, and no free slot comes alive, if and only if that process is on the ready queue or last on the wait list |
| WitnessRuns.ContinueBreaks | process/signal.c:204-211 | Eight system calls and ticks from boot reach the branch with a foreground process that waits for a key ahead of another sleeper |
| WitnessRuns.ForegroundBreaks | process/process.c:265-283 | Five system calls and ticks from boot reach move_to_fore with a running process |
| WitnessRuns.NobodyInForeground | irq/syscall.c:97-110 | Four steps from boot: a process that is no daemon runs and no process is in the foreground |
| WitnessRuns.ForkLeavesNobody | process/process.c:573-577 | fork by the foreground process leaves nobody in the foreground, whether or not the copy succeeds |
| Foreground.StaleExit | process/process.c:435-456 | exit leaves the foreground with a dead process if and only if it was so, or the caller holds it and its parent, no daemon, is dead, or the holder is a stopped child of the caller |
| Foreground.StaleTake | process/signal.c:34-86 | The same for one pending signal, whatever its handler: the guards are those of exit, SIGKILL for a holder that is stopped or has a dead parent, and a stop of a holder with a dead parent |
| ForegroundRuns.DispatchClaimsIff | process/process.c:192-198 | The chosen process claims the foreground if and only if the pointer is NULL and it is no daemon; a pointer to a dead process stays |
| ForegroundRuns.ScheduleLonelyIff | process/process.c:152-201 | schedule leaves the foreground with a dead process if and only if it found it so or a signal that it handles meets a guard |
| ForegroundRuns.LonelyIff | irq/syscall.c:97-110 | For every system call and interrupt: exactly when the pointer leads to a dead process afterwards, and exactly when a process that is no daemon then runs with nobody in the foreground |
| ForegroundRuns.ReachableLonelyIff | irq/syscall.c:97-110 | The same after every run from boot |
| ForegroundWitness.KillLeavesDeadHolder | process/signal.c:117-129 | Eleven steps from boot: a stopped holder is killed, and a process that is no daemon runs with the pointer at the dead one |
| Family.ReachableKin | process/process.c:365-383 | On every run from boot a process is younger than its parent, init aside, and the PID left in a free slot belongs to nobody |
| LostWakeups.SleepsAgainIff | process/signal.c:76-83 | A process pulled out of its sleep goes back to it when it is checked if and only if a pending signal is not handled by user code and none is deadly; nothing else changes |
| LostWakeups.PulledWaiterMisses | process/process.c:457-462 | The exit of a child leaves a parent that was pulled out of wait with its event; it goes back to sleep with a dead child under that condition |
| ForegroundWitness.SignalCostsWakeUp | process/signal.c:76-83 | Seven steps from boot: a parent asleep in wait with its dead child among the zombies |
| FailedFork.FailedForkKeepsWaiting | process/process.c:507-527 | On every run after a failed fork the slot stays INIT, and wait(-1) by the parent it has never finds that there is no child |
| Uncatchable.ReachableArmed | process/signal.c:229-240 | On every run from boot, whatever handlers are registered, every process that was ever ready has the kernel's handlers for SIGKILL and SIGSTOP |
| Uncatchable.KillIsCarriedOut | process/signal.c:34-86 | A check of pending signals ends a process with SIGKILL pending, stopped or not, whatever signals before it do to the process |
| Uncatchable.KillEnds | process/signal.c:34-145 | On every run from boot: the same for every process but init and the idle one |
| PendingProofs.SteadyCheckFrom | process/signal.c:34-86 | Delivery of all pending signals keeps the invariant, PIDs, the dead, and the age of queue entries |
| ProcessCalls.MoveToForeKeepsQueuesIff | process/process.c:265-283 | move_to_fore keeps the queues if and only if the process is ready, asleep or stopped |
| SuspendedProofs.CheckingUnlinksOnlyItself | process/process.c:160-166 | Checking a suspended job takes at most that job off the list, so the saved next pointer stays valid |
| Scheduler.HeadProgress | process/process.c:168-181 | A checked process stays at the head of the ready queue, or the pair (processes neither stopped nor dead, length of the queue) gets strictly smaller |
| KernelSteps.GoodSchedule | process/process.c:152-201 | The scheduler keeps the invariant, and afterwards the current process runs |
| ProcessCalls.GoodFork | process/process.c:562-610 | fork keeps the invariant, whether or not the copy succeeds |
| ProcessWait.WaitReapsOwnDeadChild | process/process.c:507-530 | wait reaps only a dead process that is at that moment a child of the caller and, if a PID was given, has that PID |
| ProcessWait.WaitFindsDeadChild | process/process.c:507-530 | A dead child that is asked for is reaped, unless the pass ends with a stopped child |
| ProcessWait.GoodWait | process/process.c:470-560 | A pass of wait keeps the invariant |
| ProcessWait.WaitEndsIff | process/process.c:470-560 | How a pass ends, for every state: with the stopped child, without any child, with a dead child, or at once or asleep, each with its exact condition |
| ProcessWait.StoppedChildIff | process/process.c:481-484 | The stopped child is the process that the caller has been told of by PID and that is still stopped |
| FosterEffects.FosterAdopts | process/process.c:493-506 | The walk of init over the zombies: exactly those get parent 1 whose parent's PID is nobody's, or whose parent waits and not for them; no other field and no other slot changes |
| FosterEffects.InitReapsAbandoned | process/process.c:493-531 | A wait of init for any child reaps if some zombie is its own or abandoned at the time of the call, and a wait for that PID reaps that zombie, unless the pass ends with a stopped child |
| KernelRuns.GoodStep | process/process.c:203-813 | Every system call and interrupt other than the broadcast of SIGHUP keeps the invariant |
| KernelRuns.Run | process/process.c:152-813 | The invariant holds after every sequence of system calls and interrupts |
| KernelRuns.ReachableQueues | process/process.c:152-219 | On every run from boot: the four queues are duplicate-free and hold exactly the READY, SLEEP, STOPPED and KILLED processes; running, unused, half-made and the idle process are on none |
| KernelRuns.ReachableIdentities | process/process.c:423-460 | On every run: PIDs of occupied slots are distinct and never reaped before, no PID is reaped twice, a zombie's event is its PID, SIGCONT is never pending together with SIGSTOP or SIGTSTP |
| KernelRuns.ReachableJobs | process/process.c:249-263 | On every run, outside init's children, find_job's first match is the only one |
| KernelRuns.SlotLifeCycle | process/process.c:470-610 | Only fork occupies a slot, with a fresh PID; only wait frees one, and only a dead one; the dead stay dead otherwise |
| KernelRuns.RunAges | process/process.c:152-219 | Over any run, the number of entries ahead of one in the ready queue falls by one with every call of the scheduler |
| KernelRuns.BoundedWaiting | process/process.c:152-219 | Over any run a process at index k of the ready queue has run or left the queue after more than k calls of the scheduler |
| KernelRuns.NeverOvertaken | process/process.c:152-219 | In one step an entry never moves back in the queue, and moves forward with each call of the scheduler |
| Paging.LeafEntry | memory/memory.h:49-63 | A leaf entry decodes to the page it was made from, for every aligned page and the attributes in use |
| Paging.DirEntry | memory/memory.h:49-63 | A directory entry decodes to the table it was made from |
| Paging.RegionIndices | memory/memory.c:99-170 | Within a 1 GB region the upper two indices are constant and the last one is the page number |
| Paging.IndicesRebuild | memory/memory.c:99-170 | The three table indices and the place in the page are the lower 48 bits of the address |
| MemoryManager.StoreRepresents | memory/memory.c:172-197 | Writing one leaf entry changes the partial map at one page number and nowhere else |
| MemoryManager.GrownRepresents | memory/memory.c:112-147 | Creating the tables where there were none gives the empty map |
| MemoryManager.SecondRegionErases | memory/memory.c:114-147 | A second region under the same top entry puts its middle table on top of the first one's: every page mapped before is lost |
| PageMemory.Memory.Kalloc | memory/memory.c:43-59 | The front of the free list, or NULL exactly when the list is empty |
| PageMemory.Memory.Kfree | memory/memory.c:81-97 | The page is the new front; only its own first word changes |
| PageMemory.Memory.FreeRegion | memory/memory.c:33-41 | After boot the free list holds, once each, exactly the aligned pages between the end of the kernel and the end of memory |
| PageMemory.Memory.FindGdtEntry | memory/memory.c:99-123 | The upper table, created behind the top one on demand |
| PageMemory.Memory.FindUdtEntry | memory/memory.c:125-151 | The middle table, created on demand together with the upper one |
| PageMemory.Memory.MapPage | memory/memory.c:159-182 | The tables stand for the old partial map with one more page; other pages of memory are untouched |
| PageMemory.Memory.FreePage | memory/memory.c:184-199 | A mapped page goes to the front of the free list and out of the map; an unmapped one changes nothing |
| PageMemory.Memory.FreeUvm | memory/memory.c:207-212 | The two user pages are found through the tables and freed before the page of the tables itself |
| PageMemory.Memory.SetupUvm | memory/memory.c:214-246 | Success maps program and environment; failure frees the tables and the program page but not the environment page |
| PageMemory.Memory.CopyUvm | memory/memory.c:248-290 | The same for fork, with the parent's tables walked |
| PageMemory.Memory.NewSpace | process/process.c:54-68 | Table page and environment page of a new process; the table is cleared and maps nothing |
| PageOwnership.ForkKeepsPartition | process/process.c:562-584 | fork moves pages from the allocator to the slot: every page still has exactly one owner, also when it fails |
| PageOwnership.ReapKeepsPartition | process/process.c:529-533 | Reaping hands back what the slot held: every page still has exactly one owner |
| PageOwnership.ReapUndoesFork | process/process.c:529-610 | fork and the reaping of the child cancel out up to the order of three free pages |
| PageOwnership.Exclusively | process/process.c:54-68 | A page in use is not free and held once, by one slot |
| AddressSpaces.AddressSpaces.Fork | process/process.c:562-584 | On the words of memory: the new tables map the slot's own pages, all other address spaces are intact, and the free list is as specified |
| AddressSpaces.AddressSpaces.Reap | process/process.c:529-533 | Exactly the three pages of the slot are returned, the map being walked before it is freed |
| AddressSpaces.AddressSpaces.Start | process/process.c:106-114 | The same as fork for the first user process |
| AddressSpaces.PagesInMemory | process/process.c:54-68 | The three pages of a process are pages of memory, different from each other and from all free ones |
| SystemRuns.StepKeepsPages | process/process.c:470-610 | Every step of the kernel keeps each page owned exactly once and their number |
| SystemRuns.ForkHasSource | process/process.c:583-584 | A process that calls fork has an address space to copy |
| SystemRuns.SystemRun | process/process.c:470-610 | In every state of a run each slot holds the pages its state calls for |
| SystemRuns.RunKeepsPages | process/process.c:470-610 | Over any run each page keeps exactly one owner and none gets lost |
| SystemRuns.ReachableOwnership | process/process.c:470-610 | On every run from boot: each complete process owns three different pages, no page has two owners, owned pages are not free, all pages are owned, and the free ones are all but three per process and one per failed fork |
| FatReads.CopyBytes | fs/file.c:195-195 | memcpy into the buffer: exactly that stretch changes |
| FatReads.ReadRawData | fs/file.c:166-212 | The two loops fill the buffer with what the specification says, for every table and every size |
| FatReads.ClusterPlace | fs/file.c:58-73 | The 32-bit offset of a cluster is its place on the volume when the cluster lies within reach |
| FatReads.ClustersApart | fs/file.c:58-73 | Different clusters occupy different bytes, behind the table and the root directory |
| FatLayout.FirstClusterFollowsRoot | fs/file.c:58-90 | The offset of cluster 2 is the end of the root directory, the start of which get_root_dir_section computes on its own |
| FatLayout.ReservedFirst | fs/file.c:36-42 | The reserved sectors lie before every entry of the tables |
| FatLayout.TablesBeforeRoot | fs/file.c:58-90 | Every entry of every copy of the table lies before the root directory, the copies one after the other |
| FatLayout.RootBeforeClusters | fs/file.c:58-90 | Every directory entry lies between the tables and every cluster within reach; clusters follow each other without a gap |
| FatLayout.TableEntryBytes | fs/file.c:44-49 | An entry of the table is 16 bits with the low byte first |
| FatLayout.ContentsAreThere | fs/file.c:58-73 | Byte j of the k-th cluster of a file is that byte of the volume, counted from the end of the root directory |
| FatReads.ReadsSlice | fs/file.c:166-212 | For every well-formed chain and every stretch inside it the result is that slice of the concatenated clusters; nothing is left to copy at the end mark |
| FatReads.ReadsPastEnd | fs/file.c:202-207 | A read past the end of the chain reports the full size: the rest of the file, then bytes from the start of the last cluster again, or from where the read began if that was in the last cluster |
| FileReads.AmountIsCutIff | fs/file.c:219-221 | The size is cut to what is left of the file if and only if offset + size does not wrap around |
| FileReads.WrappedSum | fs/file.c:219-221 | Offset 2 and size 0xfffffffe in a file of 100 bytes: the size is not cut |
| FileReads.ReadsConcatenate | fs/file.c:214-229 | Successive reads concatenate to a stretch of the file without gap or overlap, and the offset stops at its end |
| FileCounts.OpenKeepsCounts | fs/file.c:231-299 | open keeps both kinds of reference counts right |
| OpenFiles.OpenExact | fs/file.c:231-299 | open, for every state: lowest free descriptor and entry, offset 0, one reference more to the inode, whose size and first cluster come from the directory if it was free; everything else stays, and everything if there is no file, descriptor or entry |
| FileCounts.CloseKeepsCountsIff | fs/file.c:314-329 | close meets no failed assertion, and keeps the counts right if and only if the file entry is not shared |
| FileCounts.DropKeepsCounts | process/process.c:535-546 | Reaping one descriptor meets no entry without an inode and keeps the counts right |
| FileCounts.ShareKeepsCounts | process/process.c:588-595 | Sharing one descriptor in fork keeps the counts right |
| FileCounts.DropFrom | process/process.c:535-546 | The whole reaping loop keeps the counts right and never follows a null pointer |
| FileCounts.ShareFrom | process/process.c:588-595 | The whole sharing loop keeps the counts right |
| FileRuns.ReachableCounts | fs/file.c:231-329 | On every run with close only on unshared entries: an inode's count is the sum over its entries, an entry's count is the number of descriptors that hold it, and every descriptor leads to an inode |
| FileRuns.SharedCloseDangles | fs/file.c:319-328 | Two holders, one closes, the other is reaped: the first is left with an entry without an inode |
| FileWitness.DanglingDescriptor | fs/file.c:319-328 | From empty tables: open, fork, a close by the parent and the reaping of the child leave the parent with a descriptor whose entry has no inode |
| FileRuns.OpenCloseTakesEntry | fs/file.c:256-329 | open followed by close restores descriptors and inode counts but uses up a file entry |
| FileRuns.ForkFiles | process/process.c:583-595 | The opening and closing of the program file and the sharing together keep the counts right |
| FileRuns.SharedRows | process/process.c:586-595 | fork gives the child the parent's descriptors and touches nobody else's |
| FileRuns.DroppedRows | process/process.c:535-546 | Reaping releases all descriptors of the dead process and nobody else's |
| FileTables.FileTable.Open | fs/file.c:256-299 | The tables in place: first free descriptor, first free entry, inode filled if it was free |
| FileTables.FileTable.Close | fs/file.c:301-329 | The tables in place: counts go down, the descriptor is cleared only with the last reference |
| FileTables.FileTable.Read | fs/file.c:214-229 | The buffer and the shared offset after a read |
| FileTables.FileTable.Reap | process/process.c:535-548 | The loop over all descriptors of a zombie |
| FileTables.FileTable.Fork | process/process.c:583-595 | The program file opened and closed by the child, then the parent's descriptors shared |
| Trampoline.HandlerEntry | user/lib/flib_asm.s:543-548 | A handler starts with its signal and address from the frame, the interrupted registers in the save area and the interrupted address above it |
| Trampoline.HandlerExit | user/lib/flib_asm.s:549-560 | After the handler the proxy and the kernel restore all registers, stack pointer and program counter |
| Trampoline.ReturnUndoesFrame | irq/syscall.c:246-256 | One frame and one run of the proxy cancel out, for every handler that leaves the stack above it alone |
| Trampoline.HandlersAreTransparent | process/signal.c:46-69 | Any number of stacked signals: each handler runs once, last-stacked first, and then x0 to x30, stack pointer, program counter and stack are as before |
| Trampoline.DeliveryIsTransparent | process/signal.c:37-69 | The same for the pending caught signals of a process |
| Trampoline.CaughtOnce | process/signal.c:37-54 | The stacked signals are the pending ones with a user handler, each once, in ascending order |
| Trampoline.CaughtSignalsClear | process/signal.c:34-86 | When all pending signals are caught, none is left pending and only handlers are reset |
| Trampoline.UserThread.SaveRegisters | user/lib/flib_asm.s:21-39 | 31 registers go to their places in a 256-byte area |
| Trampoline.UserThread.RestoreRegisters | user/lib/flib_asm.s:41-59 | 31 registers come back from the area |
| Trampoline.SavedWords | user/lib/flib_asm.s:21-39 | After saving, each register is in its place and no word outside the area has changed |
| Trampoline.UserThread.HandlerProxy | user/lib/flib_asm.s:543-560 | The proxy up to its trap, step by step |
| Trampoline.UserThread.SigproxyRestore | irq/syscall.c:246-256 | x1, x8, program counter and stack pointer from the frame |
| Trampoline.UserThread.StackSignals | process/signal.c:37-58 | The loop over the signals stacks one frame for each caught one |
| ExecArguments.ExecRoundTrip | process/process.c:681-713 | For a process with count 0: the vector at the new stack decodes to the shown name and the arguments before "&", strings end below the pointers, the pointers end at the top of the page, sp is a multiple of 8 |
| ExecArguments.ShownNameIff | process/process.c:692-693 | Argument 0 is the program name if and only if the name ends in ".BIN" |
| ExecArguments.StringsFitIff | process/process.c:624-644 | For a process that counts on from an earlier program the strings stay below the pointers if and only if the skipped arguments fit into the rounding |
| ExecArguments.SkippedArgumentOverruns | process/process.c:624-644 | A process with count 1 that is given one argument of eight letters: the letters run into the vector and argument 0 does not read back |
| ExecArguments.VectorRoundTrip | process/process.c:695-710 | A vector whose strings and pointers do not overlap reads back as written |
| ExecArguments.StringsRoundTrip | process/process.c:645-655 | The kernel heap holds the arguments one after the other |
| ExecArguments.Image.CountArguments | process/process.c:621-644 | Count, size and the "&" mark |
| ExecArguments.Image.PackHeap | process/process.c:645-656 | The copy into the kernel heap |
| ExecArguments.Image.BuildStack | process/process.c:681-713 | The copy from the kernel heap to the new stack, after the old image is gone |
| ExecArguments.Image.Exec | process/process.c:612-713 | All of it in order, for any content of the overwritten page |
| ExecArguments.Image.ProcData | process/process.c:319-333 | get_proc_data copies the same arguments out of the heap and reports their size |
| LineEditor.Memmove | user/lib/flib_asm.s:128-166 | Overlapping or not, every byte ends up where it should and no other changes |
| LineEditor.CommandLine.EraseLeft | user/shell/shell.c:115-147 | Both buffers shift left and show the line without the character left of the cursor |
| LineEditor.CommandLine.InsertHere | user/shell/shell.c:199-215 | Both buffers shift right and show the line with the character at the cursor |
| LineEditor.CommandLine.EscapeKey | user/shell/shell.c:154-196 | Escape sequences move the cursor inside the line or are dropped |
| LineEditor.CommandLine.ReadCmd | user/shell/shell.c:82-220 | For every sequence of keys and interrupts that fits: the echo buffer is the edited line, zero beyond it, and the command buffer its upper-case image |
| LineEditor.EraseUndoesInsert | user/shell/shell.c:115-215 | Erase takes back the character just typed, wherever it went |
| TypedLines.PlainKeyInserts | user/shell/shell.c:199-216 | A plain key puts its own character in at the cursor, keeps what is before and behind, and moves the cursor on |
| TypedLines.DeleteKeyErases | user/shell/shell.c:108-148 | The erase key takes out the character left of the cursor, if there is one |
| TypedLines.OtherKeysChangeNothing | user/shell/shell.c:149-197 | Unknown escape sequences and the two control keys change nothing |
| TypedLines.TypedIsRead | user/shell/shell.c:82-220 | Plain keys and Enter: the line read is exactly those keys |
| TypedLines.InterruptForgets | user/shell/shell.c:95-102 | An interrupt forgets what was typed before and keeps what comes after |
| LineEditor.ArrowMoves | user/shell/shell.c:154-195 | An arrow moves the cursor by one inside the line and leaves the text alone |
| LineEditor.ToUpperExact | user/lib/flib.c:34-39 | Small letters become the capital at the same place in the alphabet; nothing else changes |
| CommandWords.WordsAreMaximalRuns | user/shell/shell.c:61-76 | The words found are precisely the maximal runs without spaces, from left to right |
| CommandWords.ScanFindsRuns | user/shell/shell.c:61-76 | From any state of the scan every run that ends later is found, and nothing else |
| CommandWords.GetCmdInfo | user/shell/shell.c:24-80 | Command start and text, extension after the last dot, and the arguments as strings of their own with a NULL after the last address |
| CommandWords.SplitWords | user/shell/shell.c:58-79 | The loop that ends words in place and stores their addresses |
| Numbers.PowerIsPow | user/lib/flib.c:142-153 | Squaring gives the power modulo the 64-bit word, for every base and exponent |
| Numbers.SumDigits | user/lib/flib.c:79-89 | Positional summing with powers of ten gives the value modulo the 32-bit word, for every string of digits |
| Numbers.Atoi | user/lib/flib.c:69-92 | For every string of digits, however long, its signed value in 32 bits; 0 if there is anything else |
| Numbers.Atoui | user/lib/flib.c:94-116 | The same unsigned; 0 for a minus sign |
| Numbers.Uitoa | user/lib/print.c:136-157 | The decimal digits of the number as a string, built backwards and reversed in place |
| Numbers.Itoa | user/lib/print.c:105-134 | The same with a sign, the negation being done in 32 bits |
| Numbers.UnsignedRoundTrip | user/lib/print.c:136-157 | atoui undoes uitoa for every 32-bit unsigned number |
| Numbers.SignedRoundTripIff | user/lib/print.c:105-134 | atoi undoes itoa if and only if the number is not the least int |
| Environment.LookUpIsBinding | lib/lib.c:202-213 | at returns the binding of the key's hash |
| Environment.InsertBinds | lib/lib.c:166-188 | insert with a key: the last value wins, other keys stay, only a new key on a full table is lost |
| Environment.InsertKeepsDistinctIff | lib/lib.c:166-188 | insert taken alone: live hashes stay distinct if and only if the key is not empty, or its hash is new, or the table is full |
| Environment.EmptyKeyTwice | lib/lib.c:166-188 | insert taken alone: an empty key inserted twice into a table with two free entries is there twice |
| Environment.RunRefinesMap | irq/syscall.c:181-236 | Every sequence of setenv and unsetenv calls acts on the table as on a map of bounded size, and hashes stay distinct |
| Environment.RunKeepsNames | lib/lib.c:166-188 | Over every sequence of calls each live entry holds a name with its hash |
| Environment.NamesAreBound | lib/lib.c:215-227 | The names listed are precisely those whose hashes are bound |
| Environment.NewNameListed | irq/syscall.c:181-202 | A new name is listed after setenv unless the table is full |
| Environment.EnvMap.SetVariable | irq/syscall.c:181-202 | setenv: a name or value of bad length is refused with -1, otherwise the table in place follows the map; an entry is made only with the overwrite flag |
| Environment.EraseUnbinds | lib/lib.c:190-200 | erase removes the key and leaves the others |
| Environment.CountIsSize | lib/lib.c:215-227 | The count of keys is the size of the map |
| Environment.EnvMap.Put | lib/lib.c:166-188 | The table in place against the map |
| Environment.EnvMap.At | lib/lib.c:202-213 | The search of the table against the map |
| Environment.EnvMap.Remove | lib/lib.c:190-200 | The table in place against the map |
| Environment.EnvMap.Keys | lib/lib.c:215-227 | The number of keys and the keys in table order |

## Left out

- The broadcast of SIGHUP (process/process.c:742-769) is not a step: it frees zombies without
  unlinking them, its inner loop reuses the name of the outer counter, and it resets the PID counter.
- Context switching, kernel stacks, the idle loop, boot code, MMU, timer, interrupt controller and UART.
- Integer widths of PIDs, job numbers, stamps and reference counts: they are unbounded here.
- Screen output, including what schedule prints at shutdown and what read_cmd echoes.
- The keyboard ring buffer.
- `wstatus` of wait, and the small queries get_status and get_active_pids.
- The globals target_proc and pc of process/signal.c: the handled process is a parameter.
- User handler addresses with kernel bits set: a user handler is any address.
- The bytes that setup_uvm and copy_uvm load or copy, and the clearing of the environment page: only
  tables and ownership of pages are followed. Whether a program file opens and loads is a parameter.
- The search of the root directory and the parsing of paths and of the parameter block: the place found
  and the fields are parameters. A read outside the volume gives zeros.
- printf, scanf, the hexadecimal conversions, login, ps, jobs, ls, uname, echo, jobctl.
- The concrete hash function: any function that never gives 0.
- Alignment checks of the stack pointer by the processor.
- AddressSpaces.AddressSpaces.Fork: needs two free pages, because alloc_new_process halts the kernel in an assertion otherwise.
- PageMemory.Memory.MapPage: needs an address within the region that is not mapped yet and a page in memory, as the assertions of the source do; tables in another region are covered only by MemoryManager.SecondRegionErases.
- Trampoline.HandlersAreTransparent: not the condition flags: the frame has no place for pstate, so that NZCV is what the last handler left.
- Trampoline.DeliveryIsTransparent: only for a process that was not in a system call; otherwise the call is started again after each frame, which is not followed. Signals delivered while a handler runs are part of that handler's behaviour.
- ExecArguments.Image.Exec: does not bound the sizes by the kernel heap and the stack, and needs a name of at least four characters, of which the code cuts off the last four, and an argument count from before that is not above the number of arguments; registers other than x1, x2 and sp are left out.
- LineEditor.CommandLine.ReadCmd: keys are not NUL and the line fits the buffer, as the code does not check.
- CommandWords.GetCmdInfo: needs room for all arguments and for two terminators, as the code does not check.
- KernelImage.Kernel.ContinueHandler: needs a foreground process that has to be paused to be ready or the last sleeper; nothing is said about the state after the branch that breaks the queues, except by PauseLinks.PauseKeepsListsIff.
- KernelImage.Kernel.PauseForeground: the same restriction.
- PauseLinks.PauseKeepsListsIff: for a foreground process that is not running, as handlers run inside the scheduler, after the process that ran has been put away.
- KernelImage.Kernel.KillAll: not for SIGHUP, whose broadcast also frees zombies.
- KernelImage.Kernel.Kill: not for the broadcast of SIGHUP.
- KernelRuns.Run: a run ends with the step that reaches one of the two branches that break the queues.
- ForegroundRuns.LonelyIff: for steps that do not reach the two branches; the guards of signals taken inside a call of the scheduler are looked at when each signal is taken, after the ones before it.
- KernelImage.Kernel.Handle: only where SIGCONT does not reach the branch that breaks the queues (`faulted` in the specification).
- KernelImage.Kernel.CheckPending: only where SIGCONT does not reach the branch that breaks the queues (`faulted` in the specification).
- KernelImage.Kernel.CheckSuspended: only where SIGCONT does not reach the branch that breaks the queues (`faulted` in the specification).
- KernelImage.Kernel.CheckReady: only where SIGCONT does not reach the branch that breaks the queues (`faulted` in the specification).
- KernelImage.Kernel.Schedule: only where SIGCONT does not reach the branch that breaks the queues (`faulted` in the specification).
- KernelImage.Kernel.Timer: only where SIGCONT does not reach the branch that breaks the queues (`faulted` in the specification).
- KernelImage.Kernel.Sleep: only where SIGCONT does not reach the branch that breaks the queues (`faulted` in the specification).
- KernelImage.Kernel.ExitCall: only where SIGCONT does not reach the branch that breaks the queues (`faulted` in the specification).
- KernelImage.Kernel.Wait: only where SIGCONT does not reach the branch that breaks the queues (`faulted` in the specification).
- KernelImage.Kernel.MoveToFore: only for a process that is ready, asleep or stopped; ProcessCalls.MoveToForeKeepsQueuesIff says what happens otherwise.
- KernelImage.Kernel.Exec: the same restriction; the file, the image and the arguments are in other modules; here only process state.
- Environment.EnvMap.Put: an empty key is excluded, which setenv never passes on; Environment.InsertKeepsDistinctIff says what it does.
- Environment.EnvMap.At: an empty key is excluded.
- Environment.LookUpIsBinding: an empty key is excluded.
- Environment.EnvMap.SetVariable: names and values are not NULL, and the caller has an environment of its own.
- FileTables.FileTable.Close: needs a descriptor below 100, which the code does not check, and right counts, as the assertions of the source do.
- FileTables.FileTable.Reap: needs right counts, so that it says nothing after a close of a shared entry.
- FileTables.FileTable.Fork: the same.
- CommandWords.SplitWords: the same room as CommandWords.GetCmdInfo.
- PageMemory.Memory.NewSpace: needs two free pages, as the assertions of the source do.
- AddressSpaces.AddressSpaces.Start: the same.
