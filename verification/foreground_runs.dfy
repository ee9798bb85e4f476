/** When a step leaves a process that is no daemon running with nobody in the foreground. */
module ForegroundRuns {
  import opened Sequences
  import opened ProcessModel
  import opened ProcessInvariant
  import opened WakeupProofs
  import opened SignalProofs
  import opened HandlerProofs
  import opened PendingProofs
  import opened Scheduler
  import opened KernelSteps
  import opened ProcessCalls
  import opened ProcessWait
  import opened KernelRuns
  import opened ExitEffects
  import opened Family
  import opened Foreground

  // ----- the scheduler

  /** Some pending signal of `i` meets a guard when it is taken. */
  predicate CheckLoses(k: KState, i: Slot, n: nat)
    requires n <= TOTAL_SIGNALS
    decreases TOTAL_SIGNALS - n
  {
    if n == TOTAL_SIGNALS || k.faulted || !Alive(k.table[i]) then false
    else if n !in k.table[i].signals || (k.table[i].state == Stopped && n != SIGKILL && n != SIGCONT) then
      CheckLoses(k, i, n + 1)
    else Loses(k, i, n) || CheckLoses(TakeSignal(k, i, n), i, n + 1)
  }

  lemma {:induction false} StaleCheck(k: KState, i: Slot, n: nat)
    requires n <= TOTAL_SIGNALS && Inv(k, {}) && Kin(k) && i != 0
    requires k.table[i].state != Running && k.table[i].state != Init
    requires !CheckFrom(k, i, n).faulted
    ensures Stale(CheckFrom(k, i, n)) <==> Stale(k) || CheckLoses(k, i, n)
    decreases TOTAL_SIGNALS - n
  {
    hide Inv, Kin, TakeSignal, Loses, Stale, Steady;
    if n == TOTAL_SIGNALS || k.faulted || !Alive(k.table[i]) {
    } else if n !in k.table[i].signals || (k.table[i].state == Stopped && n != SIGKILL && n != SIGCONT) {
      StaleCheck(k, i, n + 1);
    } else {
      var k1 := TakeSignal(k, i, n);
      StaysFaulted(k1, i, n + 1);
      StaleTake(k, i, n);
      SteadyTake(k, i, n);
      SteadyKin(k, k1);
      SteadyEntry(k, k1, i);
      StaleCheck(k1, i, n + 1);
    }
  }

  lemma StaysFaulted(k: KState, i: Slot, n: nat)
    requires n <= TOTAL_SIGNALS
    ensures k.faulted ==> CheckFrom(k, i, n) == k
  {
  }

  lemma SteadyKin(k: KState, k': KState)
    requires Inv(k, {}) && Kin(k) && Steady(k, k')
    ensures Inv(k', {}) && Kin(k')
  {
    hide Inv, Kin, Follows;
    KinFollows(k, k', {});
  }

  /** The same for the two loops of schedule. */
  predicate JobsLose(k: KState, jobs: seq<Slot>)
    decreases |jobs|
  {
    jobs != [] && !k.faulted && (CheckLoses(k, jobs[0], 0) || JobsLose(CheckPending(k, jobs[0]), jobs[1..]))
  }

  predicate QueueLoses(k: KState)
    requires Inv(k, {})
    decreases |Live(k)|, |k.ready|
  {
    k.ready != [] && !k.faulted &&
    (CheckLoses(k, k.ready[0], 0) ||
      var k1 := CheckPending(k, k.ready[0]);
      HeadProgress(k);
      !(k1.faulted || (k1.ready != [] && k1.ready[0] == k.ready[0])) && QueueLoses(k1))
  }

  predicate ScheduleLoses(k: KState)
    requires Inv(k, {})
  {
    SuspendedJobs(k);
    SteadyCheckSuspended(k, k.suspended);
    SteadyInv(k, CheckSuspended(k, k.suspended));
    JobsLose(k, k.suspended) || QueueLoses(CheckSuspended(k, k.suspended))
  }

  lemma {:induction false} StaleJobs(k: KState, jobs: seq<Slot>)
    requires Inv(k, {}) && Kin(k)
    requires forall j :: j in jobs ==> j != 0 && k.table[j].state != Running && k.table[j].state != Init
    requires !CheckSuspended(k, jobs).faulted
    ensures Stale(CheckSuspended(k, jobs)) <==> Stale(k) || JobsLose(k, jobs)
    decreases |jobs|
  {
    hide Inv, Kin, CheckFrom, CheckLoses, Stale, Steady;
    if jobs != [] && !k.faulted {
      assert jobs[0] in jobs;
      var k1 := CheckPending(k, jobs[0]);
      FaultedJobs(k1, jobs[1..]);
      StaleCheck(k, jobs[0], 0);
      SteadyCheckFrom(k, jobs[0], 0);
      SteadyKin(k, k1);
      forall j | j in jobs[1..]
        ensures j != 0 && k1.table[j].state != Running && k1.table[j].state != Init
      {
        assert j in jobs;
        SteadyEntry(k, k1, j);
      }
      StaleJobs(k1, jobs[1..]);
    }
  }

  lemma FaultedJobs(k: KState, jobs: seq<Slot>)
    ensures k.faulted ==> CheckSuspended(k, jobs) == k
  {
  }

  lemma {:induction false} StaleQueue(k: KState)
    requires Inv(k, {}) && Kin(k) && !CheckReady(k).faulted
    ensures Stale(CheckReady(k)) <==> Stale(k) || QueueLoses(k)
    decreases |Live(k)|, |k.ready|
  {
    hide Inv, Kin, CheckFrom, CheckLoses, Stale, Steady, NoRevival, Live;
    if k.ready != [] && !k.faulted {
      var c := k.ready[0];
      ReadySlot(k, c);
      var k1 := CheckPending(k, c);
      HeadProgress(k);
      SteadyKin(k, k1);
      if k1.faulted || (k1.ready != [] && k1.ready[0] == c) {
        StaleCheck(k, c, 0);
      } else {
        StaleCheck(k, c, 0);
        StaleQueue(k1);
      }
    }
  }

  /** The process about to run. */
  function Chosen(k: KState): Slot {
    if k.ready == [] then 0 else k.ready[0]
  }

  /** The choice of the scheduler claims the foreground if and only if the pointer is NULL and the
      chosen process is no daemon; a pointer to a dead process stays. */
  lemma DispatchClaimsIff(k: KState)
    requires Inv(k, {})
    ensures var k' := Dispatch(k);
      && (k'.foreground != k.foreground <==> k.foreground == NIL && !k.table[Chosen(k)].daemon)
      && (k'.foreground != k.foreground ==> k'.foreground == k'.current)
      && (Stale(k') <==> Stale(k))
      && (k'.foreground == NIL ==> k'.table[k'.current].daemon)
  {
    InvIdle(k);
    if k.ready != [] {
      ReadySlot(k, k.ready[0]);
    }
    hide Inv;
  }

  /** Nobody to ask whose turn it is at the keyboard: the current process is no daemon, and the
      foreground process that a read of the keyboard looks at is NULL. */
  predicate Lonely(k: KState) {
    !k.table[k.current].daemon && ForegroundProcess(k) == NIL
  }

  /** schedule leaves a pointer to a dead process if and only if it found one or a signal that it
      handles meets a guard; and the process it chooses is lonely if and only if that is so and
      it is no daemon. */
  lemma ScheduleLonelyIff(k: KState)
    requires Inv(k, {}) && Kin(k) && Parking(k) && !k.faulted && !Schedule(k).faulted
    ensures var k' := Schedule(k);
      && (Stale(k') <==> Stale(k) || ScheduleLoses(k))
      && (Lonely(k') <==> !k'.table[k'.current].daemon && (Stale(k) || ScheduleLoses(k)))
  {
    hide Inv, Kin, Parking, CheckSuspended, JobsLose, QueueLoses, Dispatch, Steady;
    var k1 := CheckSuspended(k, k.suspended);
    SuspendedJobs(k);
    SteadyCheckSuspended(k, k.suspended);
    SteadyKin(k, k1);
    StaleJobs(k, k.suspended);
    var k2 := CheckReady(k1);
    StaleQueue(k1);
    SteadyCheckReady(k1);
    SteadyInv(k1, k2);
    DispatchClaimsIff(k2);
  }

  // ----- single steps

  /** The state in which a step calls the scheduler, if it does. */
  datatype SchedulerCall = NoCall | Calls(k: KState)

  function CallOf(k: KState, a: Action): SchedulerCall {
    match a
    case Timer =>
      var k1 := WakeUp(k, SLEEP_SYSCALL);
      if k1.ready == [] then NoCall else Calls(Preempt(k1))
    case Sleep(event) => Calls(FallAsleep(k, event))
    case ExitCall(status) => Calls(Exit(k, k.current, ExitStatus(status)))
    case Exec(found, background, loaded) =>
      if !found || loaded then NoCall
      else
        var k1 := if background then Detach(k) else k;
        Calls(Exit(k1, k1.current, ExitStatus(1)))
    case Wait(pid, noHang, untraced, _) =>
      if pid == 0 || pid < -1 || !WaitEnding(WaitStart(k, a), pid, noHang, untraced).Blocks? then NoCall
      else Calls(FallAsleep(WaitLook(WaitStart(k, a), pid), STATE_CHANGE))
    case _ => NoCall
  }

  /** The caller itself exits and meets a guard. */
  predicate ExitCause(k: KState, a: Action) {
    match a
    case ExitCall(_) => ExitLoses(k, k.current)
    case Exec(found, background, loaded) =>
      found && !loaded && ExitLoses(k, k.current) && !(background && k.foreground == k.current)
    case _ => false
  }

  /** The slot that takes a pointer to a dead process away again: a new child in that slot, or a
      job that is brought to the foreground. */
  predicate Repairs(k: KState, a: Action) {
    match a
    case Fork(_) => k.foreground != NIL && k.foreground == FindUnused(k.table, 1)
    case Foreground(jobSpec) =>
      var x := FindJob(k, jobSpec, k.table[k.current].ppid);
      x != NIL && Parked(k.table[x]) && k.table[x].state != Stopped
    case _ => false
  }

  /** A step without the scheduler leaves its caller lonely. */
  predicate QuietCause(k: KState, a: Action) {
    match a
    case Fork(_) =>
      || (Lonely(k) && !Repairs(k, a))
      || (!k.table[k.current].daemon && k.foreground == k.current && FindUnused(k.table, 1) != NIL)
    case Exec(found, background, _) => Lonely(k) && !(found && background)
    case _ => Lonely(k) && !Repairs(k, a)
  }

  /** When the step `a` leads from `k` to a stale pointer, and when to a lonely process. */
  ghost predicate Explained(k: KState, a: Action, k': KState) {
    match CallOf(k, a)
    case Calls(k0) =>
      && Inv(k0, {})
      && (Stale(k') <==> Stale(k) || ExitCause(k, a) || ScheduleLoses(k0))
      && (Lonely(k') <==> !k'.table[k'.current].daemon && Stale(k'))
    case NoCall =>
      && (Stale(k') <==> Stale(k) && !Repairs(k, a))
      && (Lonely(k') <==> QuietCause(k, a))
  }

  lemma Follower(k: KState, k': KState)
    requires Good(k) && Kin(k) && Inv(k', {}) && Follows(k, k')
    requires k'.foreground == k.foreground && SameAlive(k, k')
    ensures Kin(k') && (Stale(k') <==> Stale(k))
  {
    hide Kin, Inv, Follows;
    GoodInv(k);
    KinFollows(k, k', {});
  }

  lemma CalmLonely(k: KState, k': KState)
    requires Good(k) && Kin(k) && Calm(k, k', {})
    ensures Good(k') && Kin(k') && k'.current == k.current && k'.foreground == k.foreground
    ensures (Stale(k') <==> Stale(k)) && (Lonely(k') <==> Lonely(k))
  {
    hide Good, Kin, Inv, Calm, Steady;
    GoodInv(k);
    GoodCalm(k, k');
    CalmSteady(k, k');
    SteadySame(k, k');
    SteadyKin(k, k');
    CalmAlive(k, k', {});
  }

  lemma TimerLonely(k: KState)
    requires Good(k) && Kin(k) && !k.faulted && !TimerStep(k).faulted
    ensures Explained(k, Timer, TimerStep(k))
  {
    hide Good, Kin, Inv, Calm, WakeUp, Preempt, Schedule, Parking, Follows;
    GoodInv(k);
    var k1 := WakeUp(k, SLEEP_SYSCALL);
    CalmWakeUp(k, SLEEP_SYSCALL, {});
    CalmQueues(k, k1, {});
    CalmLonely(k, k1);
    if k1.ready != [] {
      PreemptReady(k1);
      PreemptAlive(k1);
      Follower(k1, Preempt(k1));
      ScheduleLonelyIff(Preempt(k1));
    }
  }

  lemma PreemptAlive(k: KState)
    requires Good(k) && !k.faulted
    ensures SameAlive(k, Preempt(k)) && Preempt(k).foreground == k.foreground
  {
    hide Inv;
  }

  lemma SleepLonely(k: KState, event: int)
    requires Good(k) && Kin(k) && !k.faulted && k.current != 0 && !SleepStep(k, event).faulted
    ensures Explained(k, Sleep(event), SleepStep(k, event))
  {
    hide Good, Kin, Inv, FallAsleep, Schedule, Parking, Follows;
    FallAsleepReady(k, event);
    AsleepAlive(k, event);
    Follower(k, FallAsleep(k, event));
    ScheduleLonelyIff(FallAsleep(k, event));
  }

  lemma AsleepAlive(k: KState, event: int)
    requires Good(k) && !k.faulted
    ensures SameAlive(k, FallAsleep(k, event)) && FallAsleep(k, event).foreground == k.foreground
  {
    hide Inv;
  }

  lemma ExitLonely(k: KState, status: bv32)
    requires Good(k) && Kin(k) && !k.faulted && k.current != 0 && !ExitStep(k, status).faulted
    ensures Explained(k, ExitCall(status), ExitStep(k, status))
  {
    hide Good, Kin, Inv, Exit, ExitLoses, Schedule, Parking, Follows;
    GoodInv(k);
    CurrentSlot(k);
    ExitReady(k, ExitStatus(status));
    InvWeaken(k, k.current, {});
    assert {} + {k.current} == {k.current};
    StaleExit(k, k.current, ExitStatus(status));
    var k1 := Exit(k, k.current, ExitStatus(status));
    KinFollows(k, k1, {});
    ScheduleLonelyIff(k1);
  }

  /** What Detach keeps: a process in the foreground that is not the caller. */
  lemma DetachStale(k: KState)
    requires Good(k) && Kin(k) && !k.faulted && k.current != 0
    ensures var k1 := Detach(k);
      && Good(k1) && Kin(k1) && !k1.faulted && k1.current == k.current && k1.table[k1.current].daemon
      && (Stale(k1) <==> Stale(k))
      && (ExitLoses(k1, k.current) <==> ExitLoses(k, k.current) && k.foreground != k.current)
  {
    hide Good, Inv, NewJob, Calm, FindPid, Kin, Follows;
    GoodInv(k);
    CurrentSlot(k);
    GoodDetach(k);
    var i := k.current;
    var parent := ParentOf(k, i);
    var k1 := if parent != NIL && k.table[parent].state != Killed then NewJob(k, parent, i) else k;
    CalmSelf(k, {});
    if parent != NIL && k.table[parent].state != Killed {
      CalmNewJob(k, parent, i, {});
    }
    CalmLonely(k, k1);
    NewJobKeeps(k, parent, i);
    DetachKin(k, k1);
    if k1.foreground != NIL && k1.table[k1.foreground].pid == k1.table[i].pid {
      OnePid(k, {}, i, k.foreground);
    }
  }

  lemma NewJobKeeps(k: KState, parent: Link, i: Slot)
    ensures parent != NIL ==> forall j: Slot :: var q := NewJob(k, parent, i).table[j];
      q == k.table[j].(jobs := q.jobs, jobSpec := q.jobSpec)
  {
  }

  lemma DetachKin(k: KState, k1: KState)
    requires Kin(k1) && Detach(k).reaped == k1.reaped
    requires Detach(k).table == k1.table[k.current := k1.table[k.current].(daemon := true)]
    ensures Kin(Detach(k))
  {
  }

  lemma ExecLonely(k: KState, found: bool, background: bool, loaded: bool)
    requires Good(k) && Kin(k) && !k.faulted && k.current != 0 && !ExecStep(k, found, background, loaded).faulted
    ensures Explained(k, Exec(found, background, loaded), ExecStep(k, found, background, loaded))
  {
    hide Good, Kin, Inv, Detach, Exit, ExitLoses, ExitStep, Calm;
    if found {
      var k1 := if background then Detach(k) else k;
      if background {
        DetachStale(k);
      }
      if loaded {
        GoodInv(k1);
        CurrentSlot(k1);
        var q := k1.table[k1.current].(signals := {}, handlers := DefaultHandlers());
        CalmPut(k1, k1.current, q, {});
        CalmLonely(k1, Put(k1, k1.current, q));
      } else {
        ExitLonely(k1, 1);
      }
    }
  }

  lemma ForkLonely(k: KState, copied: bool)
    requires Good(k) && Kin(k) && !k.faulted && k.current != 0
    ensures Explained(k, Fork(copied), ForkStep(k, copied))
  {
    hide Good, Kin, FindUnused, ForkStep;
    CurrentAlive(k);
    var i := FindUnused(k.table, 1);
    if i == NIL {
      ForkNothing(k, copied);
    } else {
      Forked(k, copied, i);
    }
  }

  lemma CurrentAlive(k: KState)
    requires Good(k) && !k.faulted
    ensures k.table[k.current].state == Running
  {
    hide Inv;
  }

  /** What a fork does to the table and the pointer. */
  lemma Forked(k: KState, copied: bool, i: Slot)
    requires Good(k) && Kin(k) && !k.faulted && k.current != 0 && FindUnused(k.table, 1) == i
    ensures var k' := ForkStep(k, copied);
      && i != k.current && k.table[i].state == Unused && Alive(k'.table[i]) && k'.current == k.current
      && (forall j: Slot :: j != i ==> k'.table[j] == k.table[j])
      && k'.foreground == if k.foreground == k.current then NIL else k.foreground
  {
    hide Good, Kin, FindUnused, DefaultHandlers;
    CurrentAlive(k);
    FreshPid(k);
    if k.foreground != NIL && k.foreground != k.current {
      NotHolder(k);
    }
    ConceiveNewborn(k, i);
    hide Conceive;
  }

  lemma NotHolder(k: KState)
    requires Good(k) && Kin(k) && !k.faulted && k.current != 0 && k.foreground != NIL && k.foreground != k.current
    ensures k.table[k.foreground].pid != k.table[k.current].pid
  {
    hide Inv, Kin;
    if k.table[k.foreground].pid == k.table[k.current].pid {
      OnePid(k, {}, k.current, k.foreground);
    }
  }

  lemma FreshPid(k: KState)
    requires Good(k) && !k.faulted
    ensures k.nextPid != k.table[k.current].pid
  {
    hide Good;
    CurrentPid(k);
  }

  lemma ForegroundLonely(k: KState, jobSpec: int)
    requires Good(k) && Kin(k) && !k.faulted && k.current != 0 && !ForegroundStep(k, jobSpec).faulted
    ensures Explained(k, KernelRuns.Action.Foreground(jobSpec), ForegroundStep(k, jobSpec))
  {
    hide Good, Kin, Inv, FindJob, MoveToFore;
    var x := FindJob(k, jobSpec, k.table[k.current].ppid);
    if x != NIL {
      RunningNotParked(k, x);
      Brought(k, x);
      MoveToForeOthers(k, x);
    }
  }

  lemma Brought(k: KState, x: Slot)
    requires Parked(k.table[x])
    ensures var k' := MoveToFore(k, x);
      && Alive(k'.table[x]) && k'.current == k.current && k'.faulted == k.faulted
      && k'.foreground == if k.table[x].state == Stopped then k.foreground else x
  {
    hide Without;
  }

  lemma WaitLonely(k: KState, a: Action)
    requires Good(k) && Kin(k) && !k.faulted && k.current != 0 && a.Wait?
    requires !WaitStep(k, a.pid, a.noHang, a.untraced, a.resumed).faulted
    ensures Explained(k, a, WaitStep(k, a.pid, a.noHang, a.untraced, a.resumed))
  {
    hide Good, Kin, Inv, SleepStep, FallAsleep, WaitLook, Reap, WaitEnding, ScheduleLoses;
    if a.pid != 0 && -1 <= a.pid {
      var k0 := WaitStart(k, a);
      SetLonely(k, a.pid);
      SetLonely(k0, a.pid);
      LookLonely(k0, a.pid);
      var k1 := WaitLook(k0, a.pid);
      GoodLook(k0, a.pid);
      match WaitEnding(k0, a.pid, a.noHang, a.untraced)
      case Acknowledged(_) =>
      case NoChild =>
      case Reaps(w) =>
        ReapedIsDead(k0, a, w);
        ReapLonely(k1, w);
      case WouldBlock =>
      case Blocks => SleepLonely(k1, STATE_CHANGE);
    }
  }

  lemma SetLonely(k: KState, pid: int)
    requires Good(k) && Kin(k)
    ensures var k' := SetWpid(k, pid);
      && Good(k') && Kin(k') && k'.current == k.current && k'.faulted == k.faulted
      && (Stale(k') <==> Stale(k)) && (Lonely(k') <==> Lonely(k))
  {
    hide Good, Inv, Calm, Kin;
    GoodInv(k);
    SlotSound(k, k.current, {});
    CalmPut(k, k.current, k.table[k.current].(wpid := pid), {});
    CalmLonely(k, SetWpid(k, pid));
  }

  lemma LookLonely(k: KState, pid: int)
    requires Good(k) && Kin(k)
    ensures var k' := WaitLook(k, pid);
      Good(k') && Kin(k') && (Stale(k') <==> Stale(k)) && (Lonely(k') <==> Lonely(k))
  {
    hide Good, Inv, Calm, Kin, Foster, StoppedChild;
    SetLonely(k, pid);
    var k1 := if StoppedChild(k) != NIL then SetWpid(k, pid) else k;
    if k1.table[k1.current].pid == 1 {
      GoodInv(k1);
      CalmFoster(k1, k1.zombies);
      CalmLonely(k1, Foster(k1, k1.zombies));
    }
  }

  lemma ReapedIsDead(k: KState, a: Action, w: Slot)
    requires Good(k) && !k.faulted && k.current != 0 && a.Wait? && a.pid != 0 && -1 <= a.pid
    requires WaitEnding(k, a.pid, a.noHang, a.untraced) == Reaps(w)
    ensures WaitLook(k, a.pid).table[w].state == Killed
  {
    hide Good, WaitLook;
    WaitReapsOwnDeadChild(k, a.pid, a.noHang, a.untraced, w);
  }

  lemma ReapLonely(k: KState, w: Slot)
    requires k.table[w].state == Killed
    ensures (Stale(Reap(k, w)) <==> Stale(k)) && (Lonely(Reap(k, w)) <==> Lonely(k))
  {
    hide Without;
  }

  lemma JobsLonely(k: KState, a: Action)
    requires Good(k) && Kin(k) && !k.faulted && k.current != 0 && (a.Background? || a.Register?)
    ensures Explained(k, a, Step(k, a))
  {
    hide Good, Kin, Inv, FindJob;
    if a.Background? {
      var x := FindJob(k, a.jobSpec, k.table[k.current].ppid);
      if x != NIL && k.table[x].state == Stopped {
        RunningNotParked(k, x);
      }
    }
  }

  lemma SignalLonely(k: KState, a: Action)
    requires Good(k) && Kin(k) && Enabled(k, a) && (a.Input? || a.ControlKey? || a.KillCall?)
    ensures Explained(k, a, Step(k, a))
  {
    hide Good, Kin, Inv, Calm, Kill, WakeUp;
    GoodInv(k);
    CalmSelf(k, {});
    CalmWakeUp(k, KEYBOARD_INPUT, {});
    if a.ControlKey? {
      var f := ForegroundProcess(k);
      if f != NIL {
        CalmKill(k, k.table[f].ppid, k.table[f].pid, a.key);
      }
    } else if a.KillCall? {
      CalmKill(k, k.table[k.current].pid, a.pid, a.sig);
    }
    CalmLonely(k, Step(k, a));
  }

  /** Every step, from every state of a run: the foreground pointer leads to a dead process
      afterwards if and only if it did before and the step does not repair it, or the caller
      exits, or a signal that the scheduler handles is taken, under one of the guards; and a
      process that is no daemon runs with nobody in the foreground if and only if that is so,
      or it was so already, or it held the foreground and has forked. */
  lemma LonelyIff(k: KState, a: Action)
    requires Good(k) && Kin(k) && Enabled(k, a) && !Step(k, a).faulted
    ensures Explained(k, a, Step(k, a))
  {
    hide Good, Kin, Explained, TimerStep, SleepStep, ExitStep, ForkStep, ExecStep, WaitStep, Kill, WakeUp, Interrupt,
      ForegroundStep, BackgroundStep, RegisterStep;
    match a
    case Timer => TimerLonely(k);
    case Input => SignalLonely(k, a);
    case ControlKey(_) => SignalLonely(k, a);
    case Sleep(event) => SleepLonely(k, event);
    case ExitCall(status) => ExitLonely(k, status);
    case Fork(copied) => ForkLonely(k, copied);
    case Exec(found, background, loaded) => ExecLonely(k, found, background, loaded);
    case Wait(_, _, _, _) => WaitLonely(k, a);
    case KillCall(_, _) => SignalLonely(k, a);
    case Foreground(jobSpec) => ForegroundLonely(k, jobSpec);
    case Background(_) => JobsLonely(k, a);
    case Register(_, _) => JobsLonely(k, a);
  }

  /** The same for every state that a run from boot can reach. */
  lemma ReachableLonelyIff(acts: seq<Action>, a: Action)
    ensures Good(Boot())
    ensures var k := Run(Boot(), acts);
      Enabled(k, a) && !Step(k, a).faulted ==> Explained(k, a, Step(k, a))
  {
    hide Good, Kin, Boot, Run, Explained, Step, Enabled;
    GoodBoot();
    BootKin();
    RunKin(Boot(), acts);
    var k := Run(Boot(), acts);
    if Enabled(k, a) && !Step(k, a).faulted {
      LonelyIff(k, a);
    }
  }
}
