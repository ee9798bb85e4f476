/** System calls and interrupts as steps of the process state. Each is atomic up to its next
    call of the scheduler; wait is entered again after each wake-up. */
module KernelSteps {
  import opened Sequences
  import opened ProcessModel
  import opened ProcessInvariant
  import opened WakeupProofs
  import opened SignalProofs
  import opened HandlerProofs
  import opened PendingProofs
  import opened Scheduler

  // ----- timer and keyboard

  /** trigger_scheduler up to its call of the scheduler; the idle process is not queued. */
  function Preempt(k: KState): KState {
    var k1 := Put(k, k.current, k.table[k.current].(state := Ready));
    if k1.table[k.current].pid != 0 then MakeReady(k, k.current) else k1
  }

  function ForegroundProcess(k: KState): Link {
    if k.foreground != NIL && Alive(k.table[k.foreground]) then k.foreground else NIL
  }

  /** Ctrl-C and Ctrl-Z signal the foreground process. */
  function Interrupt(k: KState, sig: Signal): KState {
    var f := ForegroundProcess(k);
    if f == NIL then k else Kill(k, k.table[f].ppid, k.table[f].pid, sig)
  }

  // ----- sleep and exit

  /** sleep up to its call of the scheduler. */
  function FallAsleep(k: KState, event: int): KState {
    MakeAsleep(Put(k, k.current, k.table[k.current].(event := event)), k.current)
  }

  function ExitStatus(status: bv32): bv32 {
    (status & 0xff) << 8
  }

  // ----- what holds between steps

  /** The invariant, with the current process running unless the model has stopped. */
  ghost predicate Good(k: KState) {
    Inv(k, {}) && (k.faulted || k.table[k.current].state == Running)
  }

  lemma GoodInv(k: KState)
    requires Good(k)
    ensures Inv(k, {})
  {
    hide Inv;
  }

  lemma GoodCalm(k: KState, k': KState)
    requires Good(k) && Calm(k, k', {})
    ensures Good(k')
  {
    hide Inv;
    CalmSteady(k, k');
    CalmEntry(k, k', k.current, {});
    CalmQueues(k, k', {});
    SteadySame(k, k');
  }

  lemma SteadySame(k: KState, k': KState)
    requires Steady(k, k')
    ensures Inv(k', {}) && k'.current == k.current && k'.schedules == k.schedules && k'.reaped == k.reaped
    ensures k'.nextPid == k.nextPid
  {
    hide Inv;
  }

  /** The current process is running and on no queue. */
  lemma CurrentSlot(k: KState)
    requires Good(k) && !k.faulted && k.current != 0
    ensures var i := k.current;
      && k.table[i].state == Running && k.table[i].pid != 0 && Exclusive(k.table[i].signals)
      && i !in k.ready && i !in k.waiting && i !in k.suspended && i !in k.zombies
  {
    SlotSound(k, k.current, {});
    hide NoDup, InOrder, Data;
  }

  /** Only the current process runs. */
  lemma OnlyCurrentRuns(k: KState)
    requires Inv(k, {})
    ensures forall i: Slot :: k.table[i].state == Running ==> i == k.current
  {
    hide Queues, Pids, Reaped, SignalSets, Jobs, InOrder;
  }

  lemma ParkingFrom(k: KState, k': KState)
    requires Steady(k, k') && k'.table[k.current].state != Running
    ensures Parking(k')
  {
    hide Queues, Pids, Reaped, SignalSets, Jobs, InOrder, Follows;
    SteadySame(k, k');
  }

  // ----- the scheduler, seen from outside

  lemma SteadyParking(k: KState, k': KState)
    requires Steady(k, k') && Parking(k)
    ensures Parking(k')
  {
    hide Inv;
    forall i: Slot
      ensures k'.table[i].state != Running
    {
      assert EntryFollows(k.table[i], k'.table[i]);
    }
  }

  lemma DispatchQueues(k: KState)
    requires Queues(k, {}) && Parking(k)
    ensures Queues(Dispatch(k), {})
  {
    var k' := Dispatch(k);
    if k.ready != [] {
      var c := k.ready[0];
      assert k.ready == [c] + k.ready[1..];
      assert NoDup(k.ready[1..]) by {
        assert forall j :: 0 <= j < |k.ready| - 1 ==> k.ready[1..][j] == k.ready[j+1];
      }
      assert c !in k.ready[1..] by {
        assert forall j :: 0 <= j < |k.ready| - 1 ==> k.ready[1..][j] == k.ready[j+1];
      }
    }
  }

  lemma DispatchData(k: KState)
    requires Inv(k, {}) && Parking(k)
    ensures Data(Dispatch(k)) && InOrder(Dispatch(k).table, Dispatch(k).ready, Dispatch(k).arrivals)
  {
    hide Jobs, Pids, NoDup, InOrder, Holds;
    var c: Slot := if k.ready == [] then 0 else k.ready[0];
    var q := k.table[c].(state := Running);
    if k.ready != [] {
      ReadySlot(k, c);
      InOrderRest(k.table, k.ready, k.arrivals);
    }
    RestatePids(k.table, c, q, k.nextPid);
    DispatchRest(k, c);
    var r := if k.ready == [] then [] else k.ready[1..];
    InOrderPut(k.(ready := r), c, q);
  }

  lemma DispatchRest(k: KState, c: Slot)
    requires Data(k) && Parking(k) && (c == 0 || k.table[c].state == Ready)
    ensures var t := k.table[c := k.table[c].(state := Running)];
      Reaped(t, k.nextPid, k.reaped) && Running1(t, c) && SignalSets(t)
  {
    hide Jobs, Pids, NoDup;
  }

  /** A change of state and stamp that is neither a birth nor a death. */
  lemma RestatePids(t: Table, c: Slot, q: Process, nextPid: int)
    requires Pids(t, nextPid) && Jobs(t) && q == t[c].(state := q.state, arrival := q.arrival)
    requires (Occupied(t[c]) || c == 0) && Alive(q)
    ensures Pids(t[c := q], nextPid) && Jobs(t[c := q])
  {
    hide Exclusive;
  }

  lemma GoodDispatch(k: KState)
    requires Inv(k, {}) && Parking(k) && !k.faulted
    ensures Good(Dispatch(k))
  {
    DispatchQueues(k);
    DispatchData(k);
    hide Queues, Data, InOrder, Parking;
  }

  /** schedule() keeps the invariant and leaves the process it chose running. */
  lemma GoodSchedule(k: KState)
    requires Inv(k, {}) && Parking(k) && !k.faulted
    ensures Good(Schedule(k))
  {
    hide Inv, Steady, Parking, Good, CheckSuspended, Dispatch;
    var k1 := CheckSuspended(k, k.suspended);
    SuspendedJobs(k);
    SteadyCheckSuspended(k, k.suspended);
    SteadyInv(k, k1);
    SteadyParking(k, k1);
    if k1.faulted {
      GoodFaulted(k1);
    } else {
      var k2 := CheckReady(k1);
      SteadyCheckReady(k1);
      SteadyInv(k1, k2);
      SteadyParking(k1, k2);
      if k2.faulted {
        GoodFaulted(k2);
      } else {
        GoodDispatch(k2);
      }
    }
  }

  lemma GoodFaulted(k: KState)
    requires Inv(k, {}) && k.faulted
    ensures Good(k)
  {
    hide Inv;
  }

  // ----- leaving the CPU

  lemma PreemptReady(k: KState)
    requires Good(k) && !k.faulted
    ensures Inv(Preempt(k), {}) && Parking(Preempt(k)) && !Preempt(k).faulted && Follows(k, Preempt(k))
  {
    hide Inv, Follows, NoRevival, Steady, Good, Parking;
    GoodInv(k);
    var i := k.current;
    if i == 0 {
      PreemptIdle(k);
    } else {
      CurrentSlot(k);
      InvWeaken(k, i, {});
      assert {} + {i} == {i} && {i} - {i} == {};
      JoinReady(k, i, {i});
    }
    SteadyIntro(k, Preempt(k));
    ParkingFrom(k, Preempt(k));
  }

  lemma SteadyIntro(k: KState, k': KState)
    requires Inv(k', {}) && Follows(k, k')
    ensures Steady(k, k')
  {
    hide Inv, Follows;
  }

  lemma PreemptIdle(k: KState)
    requires Inv(k, {}) && k.current == 0
    ensures Preempt(k) == Put(k, 0, k.table[0].(state := Ready)) && k.table[0].pid == 0
    ensures Inv(Preempt(k), {}) && Follows(k, Preempt(k))
  {
    hide Jobs, Pids, NoDup, Follows, InOrder;
    var q := k.table[0].(state := Ready);
    assert 0 !in k.ready;
    FollowsPut(k, 0, q);
    InOrderPut(k, 0, q);
    RestatePids(k.table, 0, q, k.nextPid);
  }

  lemma FallAsleepReady(k: KState, event: int)
    requires Good(k) && !k.faulted && k.current != 0
    ensures var k' := FallAsleep(k, event);
      Inv(k', {}) && Parking(k') && !k'.faulted && Follows(k, k')
  {
    hide Inv, Follows, NoRevival, Steady, Good, Parking;
    GoodInv(k);
    CurrentSlot(k);
    var i := k.current;
    InvWeaken(k, i, {});
    assert {} + {i} == {i} && {i} - {i} == {};
    var q := k.table[i].(event := event);
    InvPut(k, i, q, {i});
    var k1 := Put(k, i, q);
    JoinWaiting(k1, i, {i});
    var k' := MakeAsleep(k1, i);
    FollowsTransitive(k, k1, k');
    SteadyIntro(k, k');
    ParkingFrom(k, k');
  }

  lemma ExitReady(k: KState, status: bv32)
    requires Good(k) && !k.faulted && k.current != 0
    ensures var k' := Exit(k, k.current, status);
      Inv(k', {}) && Parking(k') && !k'.faulted && Follows(k, k')
  {
    hide Inv, Follows, NoRevival, Steady, Good, Parking, Exit, Ends, Sound;
    GoodInv(k);
    CurrentSlot(k);
    var i := k.current;
    InvWeaken(k, i, {});
    assert {} + {i} == {i};
    EndsExit(k, i, status);
    var k' := Exit(k, i, status);
    EndsSound(k, k', {});
    SoundSteady(k, k');
    SteadyParts(k, k');
    ParkingFrom(k, k');
  }

  lemma SteadyParts(k: KState, k': KState)
    requires Steady(k, k')
    ensures Inv(k', {}) && Follows(k, k')
  {
    hide Inv, Follows;
  }

  function TimerStep(k: KState): KState
    requires Good(k) && !k.faulted
  {
    var k1 := WakeUp(k, SLEEP_SYSCALL);
    GoodInv(k);
    CalmWakeUp(k, SLEEP_SYSCALL, {});
    GoodCalm(k, k1);
    CalmQueues(k, k1, {});
    if k1.ready == [] then k1
    else
      PreemptReady(k1);
      Schedule(Preempt(k1))
  }

  function SleepStep(k: KState, event: int): KState
    requires Good(k) && !k.faulted && k.current != 0
  {
    FallAsleepReady(k, event);
    Schedule(FallAsleep(k, event))
  }

  function ExitStep(k: KState, status: bv32): KState
    requires Good(k) && !k.faulted && k.current != 0
  {
    ExitReady(k, ExitStatus(status));
    Schedule(Exit(k, k.current, ExitStatus(status)))
  }

  lemma GoodTimer(k: KState)
    requires Good(k) && !k.faulted
    ensures Good(TimerStep(k))
  {
    hide Good, Inv, Parking, Schedule, Preempt, WakeUp, Calm, Follows;
    var k1 := WakeUp(k, SLEEP_SYSCALL);
    GoodInv(k);
    CalmWakeUp(k, SLEEP_SYSCALL, {});
    GoodCalm(k, k1);
    CalmQueues(k, k1, {});
    if k1.ready != [] {
      PreemptReady(k1);
      GoodSchedule(Preempt(k1));
    }
  }

  lemma GoodSleep(k: KState, event: int)
    requires Good(k) && !k.faulted && k.current != 0
    ensures Good(SleepStep(k, event))
  {
    hide Good, Inv, Parking, Schedule, FallAsleep, Follows;
    FallAsleepReady(k, event);
    GoodSchedule(FallAsleep(k, event));
  }

  lemma GoodExit(k: KState, status: bv32)
    requires Good(k) && !k.faulted && k.current != 0
    ensures Good(ExitStep(k, status))
  {
    hide Good, Inv, Parking, Schedule, Exit, Follows;
    ExitReady(k, ExitStatus(status));
    GoodSchedule(Exit(k, k.current, ExitStatus(status)));
  }

  lemma GoodInterrupt(k: KState, sig: Signal)
    requires Good(k)
    ensures Good(Interrupt(k, sig))
  {
    hide Good, Inv, Kill, Calm;
    var f := ForegroundProcess(k);
    if f != NIL {
      GoodInv(k);
      CalmKill(k, k.table[f].ppid, k.table[f].pid, sig);
      GoodCalm(k, Interrupt(k, sig));
    }
  }

  lemma GoodKill(k: KState, sender: int, pid: int, sig: int)
    requires Good(k)
    ensures Good(Kill(k, sender, pid, sig))
  {
    hide Good, Inv, Kill, Calm;
    GoodInv(k);
    CalmKill(k, sender, pid, sig);
    GoodCalm(k, Kill(k, sender, pid, sig));
  }

  lemma GoodWakeUp(k: KState, event: int)
    requires Good(k)
    ensures Good(WakeUp(k, event))
  {
    hide Good, Inv, WakeUp, Calm;
    GoodInv(k);
    CalmWakeUp(k, event, {});
    GoodCalm(k, WakeUp(k, event));
  }
}
