/** What the timer, the keyboard, sleep, exit, job control and the choice of the scheduler do to the
    queues, stated apart from the functions that do it. */
module StepEffects {
  import opened Sequences
  import opened ProcessModel
  import opened ProcessInvariant
  import opened WakeupProofs
  import opened SignalProofs
  import opened HandlerProofs
  import opened PendingProofs
  import opened Scheduler
  import opened KernelSteps
  import opened ProcessCalls
  import opened ProcessWait
  import opened KernelRuns
  import opened ProcessEffects
  import opened ExitEffects
  import opened StopEffects
  import opened KillEffects
  import opened ForegroundRuns

  // ----- the scheduler's part of a step

  /** A step that calls the scheduler is what it does before the call, and then the scheduler. */
  lemma StepSchedules(k: KState, a: Action)
    requires Good(k) && Enabled(k, a) && CallOf(k, a).Calls?
    ensures Inv(CallOf(k, a).k, {}) && !CallOf(k, a).k.faulted && Step(k, a) == Schedule(CallOf(k, a).k)
  {
    hide Good, Inv, Schedule, WakeUp, Preempt, FallAsleep, Exit, Detach, WaitLook, WaitEnding, Calm, Follows, Parking;
    GoodInv(k);
    match a
    case Timer =>
      CalmWakeUp(k, SLEEP_SYSCALL, {});
      GoodCalm(k, WakeUp(k, SLEEP_SYSCALL));
      CalmQueues(k, WakeUp(k, SLEEP_SYSCALL), {});
      PreemptReady(WakeUp(k, SLEEP_SYSCALL));
    case Sleep(event) => FallAsleepReady(k, event);
    case ExitCall(status) => ExitReady(k, ExitStatus(status));
    case Exec(found, background, _) =>
      GoodDetach(k);
      ExitReady(if background then Detach(k) else k, ExitStatus(1));
    case Wait(pid, noHang, untraced, _) =>
      GoodSetWpid(k, pid);
      GoodLook(WaitStart(k, a), pid);
      FallAsleepReady(WaitLook(WaitStart(k, a), pid), STATE_CHANGE);
    case _ =>
  }

  predicate Sleeps(k: KState, i: Slot, event: int) {
    i != 0 && k.table[i].state == Asleep && k.table[i].event == event
  }

  /** Slot `i` is ready if it slept on `event`, else as it was. */
  predicate WokeAt(k: KState, k': KState, event: int, i: Slot) {
    if Sleeps(k, i, event) then
      && i in k'.ready && i !in k'.waiting
      && k'.table[i] == k.table[i].(state := Ready, event := NONE, arrival := k'.table[i].arrival)
    else k'.table[i] == k.table[i] && (i in k'.waiting <==> i in k.waiting) && (i in k'.ready <==> i in k.ready)
  }

  /** Exactly the sleepers on `event` have become ready, behind those who were. */
  ghost predicate Woke(k: KState, k': KState, event: int) {
    && OnlyActive(k, k')
    && (forall i: Slot :: WokeAt(k, k', event, i))
    && |k.ready| <= |k'.ready| && k'.ready[..|k.ready|] == k.ready
  }

  lemma WakesExactly(k: KState, event: int)
    requires Inv(k, {})
    ensures Woke(k, WakeUp(k, event), event)
  {
    SleepersWait(k);
    WakeUpQueues(k, event);
    hide Inv, WakeUp, Select, NoDup, WokeAt;
    forall i: Slot
      ensures WokeAt(k, WakeUp(k, event), event, i)
    {
      WakesAt(k, event, i);
    }
  }

  lemma WakesAt(k: KState, event: int, i: Slot)
    requires Inv(k, {})
    ensures WokeAt(k, WakeUp(k, event), event, i)
  {
    SleepersWait(k);
    WakeUpExact(k, event);
    SelectMembers(k.table, k.waiting, event, true);
    SelectMembers(k.table, k.waiting, event, false);
    hide Inv, WakeUp, Select, NoDup;
  }

  lemma SleepersWait(k: KState)
    requires Inv(k, {})
    ensures NoDup(k.waiting) && forall i: Slot :: i in k.waiting <==> i != 0 && k.table[i].state == Asleep
  {
    hide NoDup, Data, InOrder;
  }

  /** A key wakes exactly those who wait for the keyboard. */
  lemma InputWakes(k: KState)
    requires Good(k) && !k.faulted
    ensures Woke(k, Step(k, Input), KEYBOARD_INPUT)
  {
    hide Good, Inv, Woke, WakeUp;
    GoodInv(k);
    WakesExactly(k, KEYBOARD_INPUT);
  }

  /** The state in which a tick calls the scheduler: the sleepers are woken, then the running process
      goes behind everybody, the idle one on no queue. */
  ghost predicate Ticked(k: KState, k0: KState) {
    var c := k.current;
    && OnlyActive(k, k0)
    && (forall i: Slot :: i != c ==> WokeAt(k, k0, SLEEP_SYSCALL, i))
    && k0.table[c] == k.table[c].(state := Ready, arrival := k0.table[c].arrival)
    && (if c == 0 then 0 !in k0.ready else k0.ready != [] && k0.ready[|k0.ready| - 1] == c)
    && |k.ready| <= |k0.ready| && k0.ready[..|k.ready|] == k.ready
  }

  lemma PreemptTicks(k: KState, k1: KState)
    requires Good(k) && !k.faulted && Woke(k, k1, SLEEP_SYSCALL) && Inv(k1, {})
    ensures Ticked(k, Preempt(k1))
  {
    CurrentStands(k);
    IdleOff(k1);
    hide Good, Inv;
    var k0, c := Preempt(k1), k.current;
    assert WokeAt(k, k1, SLEEP_SYSCALL, c);
    assert k1.table[c] == k.table[c];
    PreemptForm(k1);
    hide Preempt;
    forall i: Slot | i != c
      ensures WokeAt(k, k0, SLEEP_SYSCALL, i)
    {
      WokeStill(k, k1, i);
    }
  }

  lemma WokeStill(k: KState, k1: KState, i: Slot)
    requires WokeAt(k, k1, SLEEP_SYSCALL, i) && i != k1.current
    ensures WokeAt(k, Preempt(k1), SLEEP_SYSCALL, i)
  {
    PreemptForm(k1);
    PreemptOthers(k1, i);
    hide Preempt;
  }

  lemma PreemptForm(k: KState)
    ensures var k0, c := Preempt(k), k.current;
      && OnlyActive(k, k0) && k0.waiting == k.waiting
      && k0.ready == (if k.table[c].pid != 0 then k.ready + [c] else k.ready)
      && k0.table[c] == k.table[c].(state := Ready, arrival := k0.table[c].arrival)
  {
  }

  lemma PreemptOthers(k: KState, i: Slot)
    requires i != k.current
    ensures Preempt(k).table[i] == k.table[i]
  {
  }

  lemma CurrentStands(k: KState)
    requires Good(k) && !k.faulted
    ensures k.table[k.current].state == Running && (k.table[k.current].pid == 0 <==> k.current == 0)
  {
    hide Queues, Jobs, InOrder, Reaped, SignalSets;
  }

  lemma IdleOff(k: KState)
    requires Inv(k, {})
    ensures 0 !in k.ready
  {
    hide NoDup, Data, InOrder;
  }

  /** A timer tick: exactly those asleep in the sleep call are woken; then, unless nobody is ready,
      the running process goes behind everybody, the idle one on no queue, and the scheduler is
      called. */
  lemma TickExact(k: KState)
    requires Good(k) && !k.faulted
    ensures if k.ready == [] && (forall i: Slot :: !Sleeps(k, i, SLEEP_SYSCALL)) then Step(k, Timer) == k
            else CallOf(k, Timer).Calls? && Ticked(k, CallOf(k, Timer).k)
  {
    hide Good, Inv, WakeUp, Calm, Ticked, Woke, Preempt;
    GoodInv(k);
    var k1 := WakeUp(k, SLEEP_SYSCALL);
    WakesExactly(k, SLEEP_SYSCALL);
    CalmWakeUp(k, SLEEP_SYSCALL, {});
    CalmInv(k, k1, {});
    WokeAny(k, k1, SLEEP_SYSCALL);
    if k1.ready != [] {
      PreemptTicks(k, k1);
    } else {
      NobodyStirs(k);
    }
  }

  lemma WokeAny(k: KState, k1: KState, event: int)
    requires Woke(k, k1, event) && Inv(k1, {})
    ensures k1.ready == [] <==> k.ready == [] && forall i: Slot :: !Sleeps(k, i, event)
  {
    hide Inv;
    if k1.ready != [] {
      assert k1.ready[0] in k1.ready && WokeAt(k, k1, event, k1.ready[0]);
    }
    if k.ready != [] {
      assert k.ready[0] in k.ready && WokeAt(k, k1, event, k.ready[0]);
    }
    if i: Slot :| Sleeps(k, i, event) {
      assert WokeAt(k, k1, event, i);
    }
  }

  lemma NobodyStirs(k: KState)
    requires Good(k) && !k.faulted && WakeUp(k, SLEEP_SYSCALL).ready == []
    ensures Step(k, Timer) == k
  {
    GoodInv(k);
    hide Good, Inv, NoDup, WakeUp, Woke, Calm;
    WakesExactly(k, SLEEP_SYSCALL);
    CalmWakeUp(k, SLEEP_SYSCALL, {});
    CalmInv(k, WakeUp(k, SLEEP_SYSCALL), {});
    WokeAny(k, WakeUp(k, SLEEP_SYSCALL), SLEEP_SYSCALL);
    SleepersWait(k);
    forall j | j in k.waiting
      ensures k.table[j].event != SLEEP_SYSCALL
    {
      assert !Sleeps(k, j, SLEEP_SYSCALL);
    }
    NobodyWaits(k, SLEEP_SYSCALL);
  }

  /** sleep: the caller is last on the wait list under its event and nobody else is touched before the
      scheduler is called. */
  lemma SleepExact(k: KState, event: int)
    requires Good(k) && Enabled(k, Sleep(event))
    ensures CallOf(k, Sleep(event)) ==
      Calls(k.(table := k.table[k.current := k.table[k.current].(state := Asleep, event := event)],
               waiting := k.waiting + [k.current]))
  {
    hide Good;
    var p := k.table[k.current];
    assert k.table[k.current := p.(event := event)][k.current := p.(event := event, state := Asleep)]
      == k.table[k.current := p.(state := Asleep, event := event)];
  }

  // ----- who is told of an exit, a stop or a kill

  /** Nobody waits for `event`. */
  predicate NoneWaits(k: KState, event: int) {
    forall j :: j in k.waiting ==> k.table[j].event != event
  }

  lemma WakeLeavesNone(k: KState, event: int, other: int)
    requires NoDup(k.waiting)
    ensures var k' := WakeUp(k, event);
      NoneWaits(k', event) && (NoneWaits(k, other) ==> NoneWaits(k', other))
  {
    hide NoDup, WakeUp, Select;
    WakeUpExact(k, event);
    SelectMembers(k.table, k.waiting, event, false);
    forall j | j in WakeUp(k, event).waiting
      ensures j in k.waiting && k.table[j].event != event && WakeUp(k, event).table[j].event == k.table[j].event
    {
    }
  }

  lemma GiveWayLeavesNone(k: KState, i: Slot, parent: Link)
    requires NoDup(k.waiting)
    ensures !k.table[i].daemon ==> NoneWaits(GiveWay(k, i, parent), FG_PAUSED)
    ensures NoDup(GiveWay(k, i, parent).waiting)
  {
    hide WakeUp, NoDup, Select;
    var k1 := YieldForeground(k, i, parent);
    WakeLeavesNone(k1, FG_PAUSED, FG_PAUSED);
    WakeUpExact(k1, FG_PAUSED);
    SelectNoDup(k1.table, k1.waiting, FG_PAUSED, false);
  }

  lemma BuryLeavesNone(k: KState, i: Slot)
    requires NoDup(k.waiting)
    ensures var k' := Bury(k, i);
      NoneWaits(k', STATE_CHANGE) && (NoneWaits(k, FG_PAUSED) ==> NoneWaits(k', FG_PAUSED))
  {
    hide WakeUp, NoDup;
    WakeLeavesNone(k.(zombies := k.zombies + [i]), STATE_CHANGE, FG_PAUSED);
  }

  /** After an exit nobody waits for a change of state and, if the process was no daemon, nobody is
      paused for it. */
  lemma ExitWakes(k: KState, i: Slot, status: bv32)
    requires Inv(k, {i}) && i != 0 && Alive(k.table[i]) && k.table[i].state != Init && i !in k.suspended
    ensures var k' := Exit(k, i, status);
      NoneWaits(k', STATE_CHANGE) && (!k.table[i].daemon ==> NoneWaits(k', FG_PAUSED))
  {
    hide Inv, MarkDead, Announce, EndJobs, SwitchParent, GiveWay, Bury, GetProcess, NoDup, Ends, Calm;
    var k1 := MarkDead(k, i, status);
    EndsMarkDead(k, i, status);
    EndsInv(k, k1, {i});
    var parent := ParentOf(k1, i);
    var k2 := Announce(k1, i, parent);
    EndsAnnounce(k1, i, parent, {i});
    EndsInv(k1, k2, {i});
    EndsEntry(k1, k2, {i}, i);
    var pid := k.table[i].pid;
    var k3 := EndJobs(k2, pid, k2.suspended);
    EndsJobs(k2, pid, k2.suspended, {i});
    EndsInv(k2, k3, {i});
    var k4 := SwitchParent(k3, pid, 1, true);
    CalmSwitchParent(k3, pid, true, {i});
    CalmInv(k3, k4, {i});
    WaitersSleep(k4, {i});
    SameDaemon(k, i, status, parent, k4);
    GiveWayLeavesNone(k4, i, parent);
    BuryLeavesNone(GiveWay(k4, i, parent), i);
  }

  lemma SameDaemon(k: KState, i: Slot, status: bv32, parent: Link, k4: KState)
    requires Inv(k, {i}) && i != 0 && Alive(k.table[i]) && k.table[i].state != Init && i !in k.suspended
    requires var k1 := MarkDead(k, i, status);
      && parent == ParentOf(k1, i)
      && var k2 := Announce(k1, i, parent);
      k4 == SwitchParent(EndJobs(k2, k.table[i].pid, k2.suspended), k.table[i].pid, 1, true)
    ensures k4.table[i].daemon == k.table[i].daemon
  {
    hide Inv, EndJobs, SwitchParent, GetProcess, NoDup, Ends, Calm, StoppedJobs, SameParents;
    var k1 := MarkDead(k, i, status);
    EndsMarkDead(k, i, status);
    EndsInv(k, k1, {i});
    var k2 := Announce(k1, i, parent);
    EndsAnnounce(k1, i, parent, {i});
    EndsInv(k1, k2, {i});
    EndsEntry(k1, k2, {i}, i);
    SuspendedOnce(k2, {i});
    EndJobsExact(k2, k.table[i].pid, k2.suspended, {i});
    var k3 := EndJobs(k2, k.table[i].pid, k2.suspended);
    EndsJobs(k2, k.table[i].pid, k2.suspended, {i});
    EndsInv(k2, k3, {i});
    StageEntry(k2, k3, i);
    CalmSwitchParent(k3, k.table[i].pid, true, {i});
    CalmAlive(k3, k4, {i});
  }

  /** After a stop likewise. */
  lemma StopWakes(k: KState, i: Slot)
    requires Inv(k, {}) && i != 0 && (k.table[i].state == Ready || k.table[i].state == Asleep) && k.table[i].pid > 1
    ensures var k' := StopHandler(k, i);
      NoneWaits(k', STATE_CHANGE) && (!k.table[i].daemon ==> NoneWaits(k', FG_PAUSED))
  {
    hide Inv, LeaveActive, ReportStop, GiveWay, Suspend, StoppedStatus, NoDup, GetProcess, WakeUp;
    LeavesTable(k, i);
    OffActive(k, i);
    var k1 := LeaveActive(k, i);
    var k2 := Put(k1, i, k1.table[i].(status := StoppedStatus(k1.table[i].status)));
    var parent := ParentOf(k2, i);
    StopReport(k2, i, parent);
    var k3 := ReportStop(k2, i, parent);
    GiveWayLeavesNone(k3, i, parent);
    var k4 := GiveWay(k3, i, parent);
    AfterGiveWay(k3, i, parent);
    SuspendLeavesNone(k4, i);
    assert StopHandler(k, i) == Suspend(k4, i);
  }

  lemma SuspendLeavesNone(k: KState, i: Slot)
    requires NoDup(k.waiting) && i !in k.waiting
    ensures var k' := Suspend(k, i);
      NoneWaits(k', STATE_CHANGE) && (NoneWaits(k, FG_PAUSED) ==> NoneWaits(k', FG_PAUSED))
  {
    hide WakeUp, NoDup;
    var k1 := Put(k, i, k.table[i].(state := Stopped));
    WakeLeavesNone(k1.(suspended := k1.suspended + [i]), STATE_CHANGE, FG_PAUSED);
  }

  /** After SIGKILL nobody waits for a change of state; those whom the process had paused are woken
      unless it was stopped. */
  lemma KillWakes(k: KState, i: Slot)
    requires Inv(k, {}) && i != 0 && Parked(k.table[i]) && k.table[i].pid > 1
    ensures var k' := KillHandler(k, i);
      && NoneWaits(k', STATE_CHANGE)
      && (!k.table[i].daemon && k.table[i].state != Stopped ==> NoneWaits(k', FG_PAUSED))
  {
    hide Inv, Ends, Slay, Withdraw, Bury, Notify, GetProcess, SignalBits, NoDup, NoneWaits;
    var pid, status, parent := k.table[i].pid, 0x100 | SignalBits(SIGKILL), ParentOf(k, i);
    KilledParent(k, i, status);
    var k1 := Put(k, i, k.table[i].(status := status));
    var k2 := Notify(k1, parent, status);
    NotifiedInv(k, i, parent, status);
    NotifiedSpares(k1, parent, status, i);
    NotifiedState(k1, i, parent, status);
    NotifiedDaemon(k1, i, parent, status);
    var k3 := Withdraw(k2, i, parent);
    WithdrawLeavesNone(k2, i, parent);
    EndsWithdraw(k2, i, parent);
    EndsInv(k2, k3, {i});
    EndsEntry(k2, k3, {i}, i);
    SlayLeavesNone(k3, i, pid);
    var k4 := Slay(k3, i, pid);
    EndSlay(k3, i, pid);
    WaitersSleep(k4, {i});
    BuryLeavesNone(k4, i);
    assert KillHandler(k, i) == Bury(k4, i);
  }

  lemma NotifiedDaemon(k: KState, i: Slot, parent: Link, status: bv32)
    ensures Notify(k, parent, status).table[i].daemon == k.table[i].daemon
  {
  }

  lemma WithdrawLeavesNone(k: KState, i: Slot, parent: Link)
    requires Inv(k, {}) && i != 0 && Parked(k.table[i])
    ensures !k.table[i].daemon && k.table[i].state != Stopped ==> NoneWaits(Withdraw(k, i, parent), FG_PAUSED)
  {
    hide Inv, LeaveActive, GiveWay, NoDup, NoneWaits;
    if k.table[i].state != Stopped {
      LeavesTable(k, i);
      OffActive(k, i);
      GiveWayLeavesNone(LeaveActive(k, i), i, parent);
    }
  }

  lemma SlayLeavesNone(k: KState, i: Slot, pid: int)
    requires Inv(k, {i}) && i != 0 && k.table[i].pid == pid && pid > 1
    ensures NoneWaits(k, FG_PAUSED) ==> NoneWaits(Slay(k, i, pid), FG_PAUSED)
  {
    hide Inv, Calm, SwitchParent, KillGroupFrom, SleepersListed, Spread;
    var k4 := SwitchParent(k, pid, 1, false);
    QuietHandover(k, pid);
    CalmSwitchParent(k, pid, false, {i});
    CalmInv(k, k4, {i});
    LimboListed(k4, pid, {i});
    KillGroupExact(k4, pid, SIGKILL, 2);
    var k5 := KillGroup(k4, pid, SIGKILL);
    SpreadEvents(k4, k5, pid);
    OffWaiting(k4, i);
  }

  lemma QuietHandover(k: KState, pid: int)
    requires pid > 1
    ensures var k' := SwitchParent(k, pid, 1, false);
      && k'.waiting == k.waiting && k'.table[0].event == k.table[0].event
      && forall j: Slot :: j != 0 ==> k'.table[j].event == k.table[j].event && k'.table[j].pid == k.table[j].pid
  {
    hide SwitchParentFrom, GetProcess;
    var init := GetProcess(k, 1);
    if init != NIL && k.table[init].state != Killed {
      SwitchParentExact(k, init, pid, 1, false, 1);
      var k' := SwitchParent(k, pid, 1, false);
      forall j: Slot | j != 0
        ensures k'.table[j].event == k.table[j].event && k'.table[j].pid == k.table[j].pid
      {
        assert Adopted(k.table[j], k'.table[j], pid, 1, false);
      }
    }
  }

  lemma SpreadEvents(k: KState, k': KState, pid: int)
    requires Spread(k, k', pid, false, SIGKILL, 2)
    ensures forall j: Slot :: k'.table[j].event == k.table[j].event && (j in k'.waiting ==> j in k.waiting)
  {
    hide HitSleepers;
    forall j: Slot
      ensures k'.table[j].event == k.table[j].event && (j in k'.waiting ==> j in k.waiting)
    {
      assert j < 2 || !Hit(k.table[j], pid, false) || HitEntry(k.table[j], k'.table[j], SIGKILL);
    }
  }

  // ----- job control

  /** The input event of a job that changes sides. */
  function InForeground(event: int): int {
    if event == DAEMON_INPUT then KEYBOARD_INPUT else event
  }

  function InBackground(event: int): int {
    if event == KEYBOARD_INPUT || event == FG_PAUSED then DAEMON_INPUT else event
  }

  /** Bringing a job of the same parent to the foreground: a stopped one only stops being a daemon; one
      that is ready or asleep is ready, in the foreground, and no daemon; no job, no change. */
  lemma ForegroundExact(k: KState, jobSpec: int, x: Slot)
    requires Good(k) && Enabled(k, KernelRuns.Action.Foreground(jobSpec))
    requires FindJob(k, jobSpec, k.table[k.current].ppid) == x && Parked(k.table[x])
    ensures var k' := Step(k, KernelRuns.Action.Foreground(jobSpec)); var p, q := k.table[x], k'.table[x];
      && (forall j: Slot :: j != x ==> k'.table[j] == k.table[j])
      && (if p.state == Stopped then k' == k.(table := k'.table) && q == p.(daemon := false)
          else
            && q == p.(daemon := false, state := Ready, event := InForeground(p.event), arrival := q.arrival)
            && k'.foreground == x && x in k'.ready && x !in k'.waiting && !k'.faulted)
  {
    hide Good, Inv, Without, FindJobFrom, NoDup;
    GoodInv(k);
    ParkedSlot(k, x);
    SleepersWait(k);
    WithoutGone(k.waiting, x);
  }

  lemma WithoutGone(q: seq<Slot>, x: Slot)
    requires NoDup(q)
    ensures x !in Without(q, x)
  {
    WithoutNoDup(q, x);
  }

  lemma NoJobNoChange(k: KState, jobSpec: int)
    requires Good(k) && !k.faulted && k.current != 0 && FindJob(k, jobSpec, k.table[k.current].ppid) == NIL
    ensures Step(k, KernelRuns.Action.Foreground(jobSpec)) == k && Step(k, Background(jobSpec)) == k
  {
    hide Good, MoveToFore, FindJobFrom;
  }

  /** Sending a stopped job of the same parent to the background makes it a daemon that waits for input
      as one; any other job is left alone. */
  lemma BackgroundExact(k: KState, jobSpec: int, x: Slot)
    requires Good(k) && Enabled(k, Background(jobSpec)) && FindJob(k, jobSpec, k.table[k.current].ppid) == x
    ensures var k' := Step(k, Background(jobSpec)); var p := k.table[x];
      k' == if p.state != Stopped then k
            else k.(table := k.table[x := p.(daemon := true, event := InBackground(p.event))])
  {
    hide Good, FindJobFrom;
  }

  // ----- shutdown

  /** The scheduler asks for shutdown when the idle process has been told to end and no process is
      ready or asleep, and only then. */
  lemma ShutdownIff(k: KState)
    requires Inv(k, {})
    ensures Dispatch(k).shutdown <==>
      || k.shutdown
      || (SIGTERM in k.table[0].signals
          && forall i: Slot :: i != 0 ==> k.table[i].state != Ready && k.table[i].state != Asleep)
  {
    QueuesEmptyIff(k);
    hide Inv;
  }

  lemma QueuesEmptyIff(k: KState)
    requires Inv(k, {})
    ensures k.ready == [] && k.waiting == [] <==>
      forall i: Slot :: i != 0 ==> k.table[i].state != Ready && k.table[i].state != Asleep
  {
    hide NoDup, Data, InOrder;
    if k.ready != [] {
      assert k.ready[0] in k.ready;
    }
    if k.waiting != [] {
      assert k.waiting[0] in k.waiting;
    }
  }
}
