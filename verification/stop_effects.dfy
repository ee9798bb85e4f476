/** What the kernel's handlers of stop and continue signals do. */
module StopEffects {
  import opened Sequences
  import opened ProcessModel
  import opened ProcessInvariant
  import opened WakeupProofs
  import opened SignalProofs
  import opened HandlerProofs
  import opened PendingProofs
  import opened ExitEffects
  import opened Family
  import opened KernelSteps
  import opened ProcessCalls

  /** A wake-up changes nothing but state, event and stamp of an entry, and those only for
      sleepers on the event. */
  lemma WakeUpEntry(k: KState, event: int, j: Slot)
    requires NoDup(k.waiting)
    ensures var k' := WakeUp(k, event);
      && k'.table[j] == k.table[j].(state := k'.table[j].state, event := k'.table[j].event,
          arrival := k'.table[j].arrival)
      && (j !in k.waiting ==> k'.table[j] == k.table[j])
      && k'.suspended == k.suspended && k'.zombies == k.zombies && k'.foreground == k.foreground
  {
    hide WakeUp, Select, NoDup;
    WakeUpExact(k, event);
  }

  /** GiveWay seen from one entry. */
  lemma GiveWayEntry(k: KState, i: Slot, parent: Link, j: Slot)
    requires NoDup(k.waiting)
    ensures var k' := GiveWay(k, i, parent);
      && k'.table[j] == k.table[j].(state := k'.table[j].state, event := k'.table[j].event,
          arrival := k'.table[j].arrival)
      && (j !in k.waiting ==> k'.table[j] == k.table[j])
      && k'.suspended == k.suspended && k'.zombies == k.zombies
      && k'.foreground == YieldForeground(k, i, parent).foreground
  {
    hide WakeUp, NoDup, YieldForeground;
    var k1 := YieldForeground(k, i, parent);
    OnlyForeground(k, i, parent);
    WakeUpEntry(k1, FG_PAUSED, j);
  }

  lemma OnlyForeground(k: KState, i: Slot, parent: Link)
    ensures YieldForeground(k, i, parent) == k.(foreground := YieldForeground(k, i, parent).foreground)
  {
  }

  /** What a stop does to the entries before anyone is woken. */
  predicate Reported(k: KState, k3: KState, i: Slot, parent: Link) {
    && k3.table[i].event == k.table[i].event && k3.table[i].pid == k.table[i].pid
    && k3.table[i].daemon == k.table[i].daemon
    && (parent != i ==> k3.table[i].status == StoppedStatus(k.table[i].status))
    && (CanBeTold(k, i, parent) ==>
          SIGCHLD in k3.table[parent].signals && k3.table[parent].wpid == k.table[i].pid
          && k3.table[parent].status == StoppedStatus(k.table[i].status) && k3.table[i].jobSpec != 0)
    && k3.suspended == k.suspended && k3.zombies == k.zombies && k3.foreground == k.foreground
  }

  lemma ReportedAfter(k: KState, i: Slot, parent: Link)
    ensures var k1 := LeaveActive(k, i);
      var k2 := Put(k1, i, k1.table[i].(status := StoppedStatus(k1.table[i].status)));
      Reported(k, ReportStop(k2, i, parent), i, parent) && ReportStop(k2, i, parent).waiting == k1.waiting
  {
    hide StoppedStatus, LeaveActive, ReportStop, Reported;
    var k1 := LeaveActive(k, i);
    LeavesTable(k, i);
    var k2 := Put(k1, i, k1.table[i].(status := StoppedStatus(k1.table[i].status)));
    ReportEntry(k2, i, parent);
    hide CanBeTold;
    Reports(k, k2, ReportStop(k2, i, parent), i, parent);
  }

  lemma LeavesTable(k: KState, i: Slot)
    ensures var k1 := LeaveActive(k, i);
      && k1.table == k.table && k1.suspended == k.suspended && k1.zombies == k.zombies
      && k1.foreground == k.foreground && k1.reaped == k.reaped
  {
    hide Without;
  }

  /** What the parent and the process look like after the report. */
  lemma ReportEntry(k: KState, i: Slot, parent: Link)
    ensures var k' := ReportStop(k, i, parent);
      && k' == k.(table := k'.table)
      && k'.table[i].event == k.table[i].event && k'.table[i].pid == k.table[i].pid
      && k'.table[i].daemon == k.table[i].daemon
      && (parent != i ==> k'.table[i].status == k.table[i].status)
      && (CanBeTold(k, i, parent) ==>
            SIGCHLD in k'.table[parent].signals && k'.table[parent].wpid == k.table[i].pid
            && k'.table[parent].status == k.table[i].status && k'.table[i].jobSpec != 0)
  {
  }

  lemma Reports(k: KState, k2: KState, k3: KState, i: Slot, parent: Link)
    requires k2.table == k.table[i := k.table[i].(status := StoppedStatus(k.table[i].status))]
    requires k2.suspended == k.suspended && k2.zombies == k.zombies && k2.foreground == k.foreground
    requires k3 == k2.(table := k3.table)
    requires k3.table[i].event == k2.table[i].event && k3.table[i].pid == k2.table[i].pid
      && k3.table[i].daemon == k2.table[i].daemon
    requires parent != i ==> k3.table[i].status == k2.table[i].status
    requires CanBeTold(k2, i, parent) ==>
      SIGCHLD in k3.table[parent].signals && k3.table[parent].wpid == k2.table[i].pid
      && k3.table[parent].status == k2.table[i].status && k3.table[i].jobSpec != 0
    ensures Reported(k, k3, i, parent)
  {
    hide StoppedStatus;
  }

  lemma ParentUnmoved(k: KState, i: Slot)
    ensures var k1 := LeaveActive(k, i);
      ParentOf(Put(k1, i, k1.table[i].(status := StoppedStatus(k1.table[i].status))), i) == ParentOf(k, i)
  {
    hide FindPid, Without;
    var k1 := LeaveActive(k, i);
    var k2 := Put(k1, i, k1.table[i].(status := StoppedStatus(k1.table[i].status)));
    FindPidFrame(k.table, k2.table, k.table[i].ppid, 1);
  }

  /** Stopping a process that is ready or asleep: it is the last of the suspended, its event is
      kept for later, and a living parent has SIGCHLD pending, knows the PID and the status, and
      the process has a job number. */
  lemma StopExact(k: KState, i: Slot)
    requires Inv(k, {}) && i != 0 && (k.table[i].state == Ready || k.table[i].state == Asleep) && k.table[i].pid > 1
    ensures var k' := StopHandler(k, i); var parent := ParentOf(k, i);
      && Inv(k', {}) && k'.table[i].state == Stopped && k'.suspended == k.suspended + [i] && k'.zombies == k.zombies
      && k'.table[i].event == k.table[i].event && k'.table[i].pid == k.table[i].pid
      && k'.table[i].daemon == k.table[i].daemon
      && (parent != i ==> k'.table[i].status == StoppedStatus(k.table[i].status))
      && (CanBeTold(k, i, parent) ==>
            SIGCHLD in k'.table[parent].signals && k'.table[parent].wpid == k.table[i].pid
            && k'.table[parent].status == StoppedStatus(k.table[i].status) && k'.table[i].jobSpec != 0)
  {
    hide Inv, Sound, LeaveActive, ReportStop, GiveWay, Suspend, StoppedStatus, NoDup, WakeUp, GetProcess;
    SoundStop(k, i);
    SoundInv(k, StopHandler(k, i), {});
    ParentUnmoved(k, i);
    var parent := ParentOf(k, i);
    ReportedAfter(k, i, parent);
    var k1 := LeaveActive(k, i);
    var k2 := Put(k1, i, k1.table[i].(status := StoppedStatus(k1.table[i].status)));
    var k3 := ReportStop(k2, i, parent);
    OffActive(k, i);
    GiveWayEntry(k3, i, parent, i);
    if parent != NIL {
      GiveWayEntry(k3, i, parent, parent);
    }
    var k4 := GiveWay(k3, i, parent);
    AfterGiveWay(k3, i, parent);
    SuspendExact(k4, i);
    if parent != NIL {
      SuspendEntry(k4, i, parent);
    }
    assert StopHandler(k, i) == Suspend(k4, i);
  }

  lemma OffActive(k: KState, i: Slot)
    requires Inv(k, {}) && i != 0 && (k.table[i].state == Ready || k.table[i].state == Asleep)
    ensures i !in LeaveActive(k, i).waiting && NoDup(LeaveActive(k, i).waiting)
  {
    ParkedSlot(k, i);
    EndsLeaveActive(k, i);
    EndsInv(k, LeaveActive(k, i), {i});
    hide LeaveActive, Inv;
    InLimbo(LeaveActive(k, i), i, {i});
    WaitersSleep(LeaveActive(k, i), {i});
  }

  lemma AfterGiveWay(k: KState, i: Slot, parent: Link)
    requires NoDup(k.waiting) && i !in k.waiting
    ensures NoDup(GiveWay(k, i, parent).waiting) && i !in GiveWay(k, i, parent).waiting
  {
    hide WakeUp, NoDup, Select;
    var k1 := YieldForeground(k, i, parent);
    if !k1.table[i].daemon {
      WakeUpExact(k1, FG_PAUSED);
      SelectNoDup(k1.table, k1.waiting, FG_PAUSED, false);
      StillWaiting(k1, FG_PAUSED);
    }
  }

  lemma SuspendExact(k: KState, i: Slot)
    requires NoDup(k.waiting) && i !in k.waiting
    ensures var k' := Suspend(k, i);
      && k'.table[i] == k.table[i].(state := Stopped) && k'.suspended == k.suspended + [i] && k'.zombies == k.zombies
  {
    hide WakeUp, NoDup;
    var k1 := Put(k, i, k.table[i].(state := Stopped));
    WakeUpEntry(k1.(suspended := k1.suspended + [i]), STATE_CHANGE, i);
  }

  lemma SuspendEntry(k: KState, i: Slot, j: Slot)
    requires NoDup(k.waiting)
    ensures var k' := Suspend(k, i);
      k'.table[j] == k.table[j].(state := k'.table[j].state, event := k'.table[j].event, arrival := k'.table[j].arrival)
  {
    hide WakeUp, NoDup;
    var k1 := Put(k, i, k.table[i].(state := Stopped));
    WakeUpEntry(k1.(suspended := k1.suspended + [i]), STATE_CHANGE, j);
  }

  // ----- continue

  /** The event under which a continued process goes on waiting. */
  function ResumedEvent(p: Process): int {
    if !p.daemon && p.event == DAEMON_INPUT then KEYBOARD_INPUT else p.event
  }

  /** A stopped process that holds the foreground itself, as it does when a child in the
      foreground exits and hands it back. */
  predicate HoldsForeground(k: KState, i: Slot) {
    !k.table[i].daemon && k.foreground == i
  }

  /** Continuing a stopped process: it leaves the suspended list for the ready queue or, if it
      was waiting for something, for the wait list. One that is no daemon takes the foreground
      and puts whoever held it to sleep until it is given back; if that was the process itself,
      it sleeps until it gives way to itself. */
  lemma ContinueExact(k: KState, i: Slot)
    requires Inv(k, {}) && i != 0 && k.table[i].state == Stopped && k.table[i].pid > 1
    requires !k.faulted && CanTakeOver(k, i)
    ensures var k' := ContinueHandler(k, i); var p := k.table[i];
      && Inv(k', {}) && k'.suspended == Without(k.suspended, i) && k'.table[i].pid == p.pid
      && k'.table[i].daemon == p.daemon && k'.table[i].status == ContinuedStatus(p.status)
      && k'.table[i].state == (if HoldsForeground(k, i) || p.event != NONE then Asleep else Ready)
      && k'.table[i].event == (if HoldsForeground(k, i) then FG_PAUSED else ResumedEvent(p))
      && k'.foreground == (if p.daemon then k.foreground else i)
      && (!p.daemon && k.foreground != NIL && k.foreground != i ==>
            k'.table[k.foreground].state == Asleep && k'.table[k.foreground].event == FG_PAUSED)
      && !k'.faulted
  {
    hide Inv, Steady, GetProcess, ContinuedStatus, Without, Resume, FinishContinue, PauseForeground;
    SteadyContinue(k, i);
    SteadyInv(k, ContinueHandler(k, i));
    ContinueFaultsIff(k, i);
    var k1 := Resume(k, i);
    ResumeExact(k, i);
    if k1.table[i].daemon {
      FinishExact(k1, i);
    } else {
      if k1.foreground != NIL {
        PauseExact(k1);
      }
      var k2 := if k1.foreground != NIL then PauseForeground(k1) else k1;
      FinishExact(k2.(foreground := i), i);
    }
  }

  /** Where a process with entry `p` was when it was stopped: on the ready queue, or on the wait
      list under its event. */
  predicate BackInPlace(k: KState, i: Slot, p: Process) {
    && k.table[i].event == ResumedEvent(p)
    && (if p.event == NONE then i in k.ready && i !in k.waiting else i in k.waiting && i !in k.ready)
  }

  /** A continued process comes back to where it was if and only if it is a daemon, or does not
      hold the foreground, or was paused for somebody else in the first place. */
  lemma ContinueReturnsIff(k: KState, i: Slot)
    requires Inv(k, {}) && i != 0 && k.table[i].state == Stopped && k.table[i].pid > 1
    requires !k.faulted && CanTakeOver(k, i)
    ensures BackInPlace(ContinueHandler(k, i), i, k.table[i]) <==>
      k.table[i].daemon || k.foreground != i || k.table[i].event == FG_PAUSED
  {
    hide Inv, ContinueHandler, CanTakeOver, Without;
    ContinueExact(k, i);
    ParkedSlot(ContinueHandler(k, i), i);
  }

  lemma PauseExact(k: KState)
    requires k.foreground != NIL
    ensures var k' := PauseForeground(k); var f: Slot := k.foreground;
      && k'.suspended == k.suspended && k'.foreground == k.foreground && k'.faulted == k.faulted
      && k'.table == k.table[f := k.table[f].(state := Asleep, event := FG_PAUSED)]
  {
    hide Pushed, Without;
  }

  /** Whether the foreground process can be paused for a stopped one that is continued, seen
      from before the call. A resumed process with an event is the last sleeper itself. */
  predicate CanTakeOver(k: KState, i: Slot) {
    || k.table[i].daemon || k.foreground == NIL || k.foreground == i || k.foreground in k.ready
    || (k.table[i].event == NONE && IsLast(k.waiting, k.foreground))
  }

  /** SIGCONT for a stopped process meets the branch that breaks the queues if and only if the
      foreground process cannot be paused. */
  lemma ContinueFaultsIff(k: KState, i: Slot)
    requires !k.faulted && k.table[i].state == Stopped && k.table[i].pid > 1
    ensures ContinueHandler(k, i).faulted <==> !CanTakeOver(k, i)
  {
    hide Resume, FinishContinue, PauseForeground;
    ResumeExact(k, i);
    ResumeQueues(k, i);
    var k1 := Resume(k, i);
    FinishExact(k1, i);
    if k1.foreground != NIL {
      PauseExact(k1);
      FinishExact(PauseForeground(k1).(foreground := i), i);
    } else {
      FinishExact(k1.(foreground := i), i);
    }
  }

  /** A foreground process that has a stopped child with no event continued and then waits for it:
      it is the last sleeper when the child is continued, so the child takes the foreground and
      the wait list stays as it is. Its event is overwritten, so that it is woken when the
      foreground is given back. */
  lemma WaiterIsPaused(k: KState, i: Slot, event: int)
    requires Good(k) && !k.faulted && k.current != 0 && k.foreground == k.current
    requires i != k.current && i != 0 && k.table[i].state == Stopped && k.table[i].event == NONE
    requires k.table[i].pid > 1 && !k.table[i].daemon
    ensures var k1 := FallAsleep(k, event); var k' := ContinueHandler(k1, i);
      && !k'.faulted && Inv(k', {}) && k'.foreground == i && k'.table[i].state == Ready
      && k'.waiting == k.waiting + [k.current] && k'.table[k.current].state == Asleep
      && k'.table[k.current].event == FG_PAUSED
  {
    hide Good, Inv, Resume, FinishContinue, PauseForeground, ContinuedStatus;
    FallAsleepReady(k, event);
    var k1 := FallAsleep(k, event);
    ContinueFaultsIff(k1, i);
    ContinueExact(k1, i);
    ResumeExact(k1, i);
    ResumeQueues(k1, i);
    var k2 := Resume(k1, i);
    WaitersOnce(k1);
    PausedAgain(k2);
    FinishExact(PauseForeground(k2).(foreground := i), i);
  }

  lemma WaitersOnce(k: KState)
    requires Inv(k, {})
    ensures NoDup(k.waiting)
  {
    hide NoDup;
  }

  lemma PausedAgain(k: KState)
    requires k.foreground != NIL && IsLast(k.waiting, k.foreground) && NoDup(k.waiting)
    ensures PauseForeground(k).waiting == k.waiting
  {
    hide Without;
    PushedAgain(k.waiting, |k.waiting| - 1);
  }

  lemma ResumeQueues(k: KState, i: Slot)
    ensures var k1 := Resume(k, i);
      if k.table[i].event == NONE then k1.ready == k.ready + [i] && k1.waiting == k.waiting
      else k1.ready == k.ready && k1.waiting == k.waiting + [i]
  {
    hide Without;
  }

  lemma ResumeExact(k: KState, i: Slot)
    ensures var k1 := Resume(k, i); var p := k.table[i];
      && k1.suspended == Without(k.suspended, i) && k1.foreground == k.foreground && k1.faulted == k.faulted
      && k1.table[i] == p.(state := if p.event == NONE then Ready else Asleep, event := ResumedEvent(p),
                           arrival := k1.table[i].arrival)
      && (forall j: Slot :: j != i ==> k1.table[j] == k.table[j])
  {
    hide Without;
  }

  lemma FinishExact(k: KState, i: Slot)
    ensures var k' := FinishContinue(k, i);
      && k' == k.(table := k'.table)
      && k'.table[i] == k.table[i].(status := ContinuedStatus(k.table[i].status), signals := k'.table[i].signals)
      && (forall j: Slot :: k'.table[j] == k.table[j].(status := k'.table[j].status, signals := k'.table[j].signals))
  {
    hide ContinuedStatus, GetProcess;
  }

  /** Stop and continue undo each other: a process that is no daemon comes back to the queue it
      was taken from, waiting for the same thing, in the foreground; a daemon comes back too,
      and the foreground is left alone. */
  lemma ContinueUndoesStop(k: KState, i: Slot)
    requires Inv(k, {}) && Kin(k)
    requires i != 0 && (k.table[i].state == Ready || k.table[i].state == Asleep) && k.table[i].pid > 1
    requires var k1 := StopHandler(k, i);
      !k.faulted && CanTakeOver(k1, i)
    ensures var k' := ContinueHandler(StopHandler(k, i), i);
      && k'.table[i].state == (if k.table[i].event == NONE then Ready else Asleep)
      && k'.table[i].event == ResumedEvent(k.table[i]) && k'.table[i].pid == k.table[i].pid
      && k'.suspended == k.suspended
      && (!k.table[i].daemon ==> k'.foreground == i)
  {
    hide Inv, StopHandler, ContinueHandler, GetProcess, StoppedStatus, ContinuedStatus;
    StopExact(k, i);
    SoundStop(k, i);
    StopGivesWay(k, i);
    ContinueExact(StopHandler(k, i), i);
    NotSuspended(k, i);
    WithoutLast(k.suspended, i);
  }

  /** A process that is stopped no longer holds the foreground. */
  lemma StopGivesWay(k: KState, i: Slot)
    requires Inv(k, {}) && Kin(k)
    requires i != 0 && (k.table[i].state == Ready || k.table[i].state == Asleep) && k.table[i].pid > 1
    ensures StopHandler(k, i).foreground == YieldForeground(k, i, ParentOf(k, i)).foreground
    ensures StopHandler(k, i).foreground != i
  {
    hide Inv, LeaveActive, ReportStop, GiveWay, Suspend, StoppedStatus, NoDup, GetProcess, WakeUp, Kin;
    NotOwnParent(k, i);
    var parent := ParentOf(k, i);
    ParentUnmoved(k, i);
    LeavesTable(k, i);
    var k1 := LeaveActive(k, i);
    var k2 := Put(k1, i, k1.table[i].(status := StoppedStatus(k1.table[i].status)));
    StopReport(k2, i, parent);
    var k3 := ReportStop(k2, i, parent);
    OffActive(k, i);
    GiveWayEntry(k3, i, parent, i);
    AfterGiveWay(k3, i, parent);
    SuspendForeground(GiveWay(k3, i, parent), i);
    assert StopHandler(k, i) == Suspend(GiveWay(k3, i, parent), i);
    SameYield(k, k3, i, parent);
  }

  /** The report of a stop leaves PIDs, daemons, states and the foreground alone. */
  lemma StopReport(k: KState, i: Slot, parent: Link)
    ensures var k' := ReportStop(k, i, parent);
      && k'.foreground == k.foreground && k'.waiting == k.waiting
      && forall j: Slot :: k'.table[j].pid == k.table[j].pid && k'.table[j].daemon == k.table[j].daemon
           && k'.table[j].state == k.table[j].state
  {
  }

  lemma SameYield(k: KState, k': KState, i: Slot, parent: Link)
    requires k'.foreground == k.foreground
    requires forall j: Slot :: k'.table[j].pid == k.table[j].pid && k'.table[j].daemon == k.table[j].daemon
    ensures YieldForeground(k', i, parent).foreground == YieldForeground(k, i, parent).foreground
  {
  }

  lemma SuspendForeground(k: KState, i: Slot)
    requires NoDup(k.waiting)
    ensures Suspend(k, i).foreground == k.foreground
  {
    hide WakeUp, NoDup;
    var k1 := Put(k, i, k.table[i].(state := Stopped));
    WakeUpEntry(k1.(suspended := k1.suspended + [i]), STATE_CHANGE, i);
  }

  lemma SuspendAlive(k: KState, i: Slot)
    requires Inv(k, {i}) && i != 0 && Alive(k.table[i]) && k.table[i].state != Init && i !in k.suspended
    ensures SameAlive(k, Suspend(k, i))
  {
    SlotSound(k, i, {i});
    hide Inv, Follows, NoRevival, Calm, WakeUp, SameAlive;
    var q := k.table[i].(state := Stopped);
    InvPut(k, i, q, {i});
    var k1 := Put(k, i, q);
    JoinSuspended(k1, i, {i});
    assert {i} - {i} == {};
    var k2 := k1.(suspended := k1.suspended + [i]);
    CalmWakeUp(k2, STATE_CHANGE, {});
    CalmAlive(k2, WakeUp(k2, STATE_CHANGE), {});
    StoppedAlive(k, k2, WakeUp(k2, STATE_CHANGE), i);
  }

  lemma StoppedAlive(k: KState, k2: KState, k': KState, i: Slot)
    requires Alive(k.table[i]) && k2.table == k.table[i := k.table[i].(state := Stopped)] && SameAlive(k2, k')
    ensures SameAlive(k, k')
  {
    forall j: Slot
      ensures Alive(k'.table[j]) <==> Alive(k.table[j])
    {
      assert Alive(k2.table[j]) <==> Alive(k.table[j]);
    }
  }

  /** A stop takes no life. */
  lemma StopAlive(k: KState, i: Slot)
    requires Inv(k, {}) && i != 0 && (k.table[i].state == Ready || k.table[i].state == Asleep) && k.table[i].pid > 1
    ensures SameAlive(k, StopHandler(k, i))
  {
    hide Inv, Ends, Calm, LeaveActive, ReportStop, GiveWay, Suspend, StoppedStatus, GetProcess;
    var k1 := LeaveActive(k, i);
    EndsLeaveActive(k, i);
    EndsInv(k, k1, {i});
    var q := k1.table[i].(status := StoppedStatus(k1.table[i].status));
    SlotSound(k1, i, {i});
    CalmPut(k1, i, q, {i});
    var k2 := Put(k1, i, q);
    CalmInv(k1, k2, {i});
    var parent := ParentOf(k2, i);
    CalmReportStop(k2, i, parent, {i});
    var k3 := ReportStop(k2, i, parent);
    CalmThen(k1, k2, k3, {i});
    CalmInv(k1, k3, {i});
    CalmEnds(k1, k3, {i});
    EndsEntry(k1, k3, {i}, i);
    CalmAlive(k1, k3, {i});
    GiveWayAlive(k3, i, parent, {i});
    EndsGiveWay(k3, i, parent, {i});
    var k4 := GiveWay(k3, i, parent);
    EndsInv(k3, k4, {i});
    EndsEntry(k3, k4, {i}, i);
    SuspendAlive(k4, i);
    assert StopHandler(k, i) == Suspend(k4, i);
  }

  lemma NotSuspended(k: KState, i: Slot)
    requires Inv(k, {}) && i != 0 && (k.table[i].state == Ready || k.table[i].state == Asleep)
    ensures i !in k.suspended
  {
    hide Inv;
    ParkedSlot(k, i);
  }

  lemma {:induction false} WithoutLast(q: seq<Slot>, i: Slot)
    requires i !in q
    ensures Without(q + [i], i) == q
  {
    if q != [] {
      assert (q + [i])[1..] == q[1..] + [i];
      WithoutLast(q[1..], i);
    }
  }

  // ----- jobs in the background

  /** A stopped process that was reading keys, sent to the background and continued there: it
      waits for input as a daemon, keys do not wake it, and the foreground is left alone. Brought
      back to the foreground it is ready to read keys again. */
  lemma BackgroundJob(k: KState, jobSpec: int, i: Slot)
    requires Inv(k, {}) && !k.faulted && i != 0 && k.table[i].state == Stopped && k.table[i].pid > 1
    requires i == FindJob(k, jobSpec, k.table[k.current].ppid)
    requires k.table[i].event == KEYBOARD_INPUT || k.table[i].event == FG_PAUSED
    ensures var k2 := ContinueHandler(BackgroundStep(k, jobSpec), i);
      && k2.table[i].state == Asleep && k2.table[i].event == DAEMON_INPUT && k2.foreground == k.foreground
      && WakeUp(k2, KEYBOARD_INPUT).table[i] == k2.table[i]
      && var k3 := MoveToFore(k2, i);
      k3.table[i].state == Ready && k3.table[i].event == KEYBOARD_INPUT && i in k3.ready && i !in k3.waiting
        && k3.foreground == i
  {
    hide Inv, Steady, WakeUp, ContinueHandler, MoveToFore, NoDup, FindJob, GetProcess, Without, ContinuedStatus;
    var q := k.table[i].(daemon := true, event := DAEMON_INPUT);
    var k1 := BackgroundStep(k, jobSpec);
    assert k1 == Put(k, i, q);
    SteadyPutParked(k, i, q);
    SteadyInv(k, k1);
    ContinueExact(k1, i);
    var k2 := ContinueHandler(k1, i);
    WaitersSleep(k2, {});
    WakeUpExact(k2, KEYBOARD_INPUT);
    BroughtForward(k2, i);
  }

  lemma BroughtForward(k: KState, i: Slot)
    requires Inv(k, {}) && i != 0 && k.table[i].state == Asleep && k.table[i].event == DAEMON_INPUT
    ensures var k3 := MoveToFore(k, i);
      k3.table[i].state == Ready && k3.table[i].event == KEYBOARD_INPUT && i in k3.ready && i !in k3.waiting
        && k3.foreground == i
  {
    ParkedSlot(k, i);
    WaitersSleep(k, {});
    WithoutNoDup(k.waiting, i);
    hide Inv, NoDup, Without;
  }
}
