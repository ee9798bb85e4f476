/** The idle process never holds the foreground, on any run; so a control key always finds the process
    it is for. */
module ForegroundSlot {
  import opened Sequences
  import opened ProcessModel
  import opened ProcessInvariant
  import opened WakeupProofs
  import opened SignalProofs
  import opened HandlerProofs
  import opened PendingProofs
  import opened Scheduler
  import opened KernelSteps
  import opened ProcessCalls
  import opened ProcessWait
  import opened KernelRuns
  import opened ExitEffects
  import opened Family
  import opened StopEffects
  import opened KillEffects
  import opened Foreground
  import opened ForegroundRuns
  import opened StepEffects
  import opened KillSteps

  predicate NotIdle(k: KState) {
    k.foreground != 0
  }

  lemma YieldNotIdle(k: KState, i: Slot)
    requires NotIdle(k)
    ensures YieldForeground(k, i, ParentOf(k, i)).foreground != 0
  {
    hide FindPid;
  }

  lemma ExitNotIdle(k: KState, i: Slot, status: bv32)
    requires Inv(k, {i}) && i != 0 && Alive(k.table[i]) && k.table[i].state != Init && i !in k.suspended && NotIdle(k)
    ensures NotIdle(Exit(k, i, status))
  {
    hide Inv, Exit, YieldForeground, ParentOf, StoppedJobs, SameAlive;
    ExitExact(k, i, status);
    YieldNotIdle(k, i);
  }

  lemma HandleNotIdle(k: KState, i: Slot, sig: Signal)
    requires Inv(k, {}) && Kin(k) && i != 0 && Parked(k.table[i]) && NotIdle(k) && !k.faulted
    requires k.table[i].state == Stopped ==> sig == SIGKILL || sig == SIGCONT
    requires !Handle(k, i, sig).faulted
    ensures NotIdle(Handle(k, i, sig))
  {
    hide Inv, Kin, Terminate, KillHandler, StopHandler, ContinueHandler, DefaultHandlers, YieldForeground, ParentOf;
    PidPositive(k, i);
    YieldNotIdle(k, i);
    if k.table[i].handlers[sig].KernelHandler? || (sig == SIGCONT && k.table[i].handlers[sig].UserHandler?) {
      if sig == SIGHUP || sig == SIGINT || sig == SIGABRT || sig == SIGTERM {
        TerminateNotIdle(k, i, sig);
      } else if k.table[i].pid <= 1 {
        SparesInit(k, i);
        ContinueSparesInit(k, i);
      } else if sig == SIGKILL {
        KillAlive(k, i);
      } else if sig == SIGSTOP || sig == SIGTSTP {
        StopGivesWay(k, i);
      } else if sig == SIGCONT {
        ContinueNotIdle(k, i);
      }
    }
  }

  lemma ContinueSparesInit(k: KState, i: Slot)
    requires k.table[i].pid == 1
    ensures ContinueHandler(k, i) == k
  {
  }

  lemma TerminateNotIdle(k: KState, i: Slot, sig: Signal)
    requires Inv(k, {}) && i != 0 && (k.table[i].state == Ready || k.table[i].state == Asleep) && NotIdle(k)
    ensures NotIdle(Terminate(k, i, sig))
  {
    hide Inv, Ends, LeaveActive, Exit;
    var k1 := LeaveActive(k, i);
    EndsLeaveActive(k, i);
    EndsInv(k, k1, {i});
    LeavesTable(k, i);
    ExitNotIdle(k1, i, 0x100 | (sig as bv32));
  }

  lemma ContinueNotIdle(k: KState, i: Slot)
    requires Inv(k, {}) && i != 0 && Parked(k.table[i]) && k.table[i].pid > 1 && NotIdle(k) && !k.faulted
    requires !ContinueHandler(k, i).faulted
    ensures NotIdle(ContinueHandler(k, i))
  {
    hide Inv, Resume, FinishContinue, PauseForeground, CanTakeOver, GetProcess;
    if k.table[i].state == Stopped {
      ContinueFaultsIff(k, i);
      ContinueExact(k, i);
    }
  }

  lemma TakeNotIdle(k: KState, i: Slot, sig: Signal)
    requires Inv(k, {}) && Kin(k) && i != 0 && Parked(k.table[i]) && NotIdle(k) && !k.faulted
    requires k.table[i].state == Stopped ==> sig == SIGKILL || sig == SIGCONT
    requires !TakeSignal(k, i, sig).faulted
    ensures NotIdle(TakeSignal(k, i, sig))
  {
    hide Inv, Kin, Handle, Toggle, Without;
    HandleNotIdle(k, i, sig);
  }

  lemma {:induction false} CheckNotIdle(k: KState, i: Slot, n: nat)
    requires n <= TOTAL_SIGNALS && Inv(k, {}) && Kin(k) && i != 0 && NotIdle(k)
    requires k.table[i].state != Running && k.table[i].state != Init && !CheckFrom(k, i, n).faulted
    ensures NotIdle(CheckFrom(k, i, n))
    decreases TOTAL_SIGNALS - n
  {
    hide Inv, Kin, TakeSignal, NotIdle, Steady;
    if n == TOTAL_SIGNALS || k.faulted || !Alive(k.table[i]) {
    } else if n !in k.table[i].signals || (k.table[i].state == Stopped && n != SIGKILL && n != SIGCONT) {
      CheckNotIdle(k, i, n + 1);
    } else {
      var k1 := TakeSignal(k, i, n);
      StaysFaulted(k1, i, n + 1);
      TakeNotIdle(k, i, n);
      SteadyTake(k, i, n);
      SteadyKin(k, k1);
      SteadyEntry(k, k1, i);
      CheckNotIdle(k1, i, n + 1);
    }
  }

  lemma {:induction false} JobsNotIdle(k: KState, jobs: seq<Slot>)
    requires Inv(k, {}) && Kin(k) && NotIdle(k) && !CheckSuspended(k, jobs).faulted
    requires forall j :: j in jobs ==> j != 0 && k.table[j].state != Running && k.table[j].state != Init
    ensures NotIdle(CheckSuspended(k, jobs))
    decreases |jobs|
  {
    hide Inv, Kin, CheckFrom, NotIdle, Steady;
    if jobs != [] && !k.faulted {
      assert jobs[0] in jobs;
      var k1 := CheckPending(k, jobs[0]);
      FaultedJobs(k1, jobs[1..]);
      CheckNotIdle(k, jobs[0], 0);
      SteadyCheckFrom(k, jobs[0], 0);
      SteadyKin(k, k1);
      forall j | j in jobs[1..]
        ensures j != 0 && k1.table[j].state != Running && k1.table[j].state != Init
      {
        assert j in jobs;
        SteadyEntry(k, k1, j);
      }
      JobsNotIdle(k1, jobs[1..]);
    }
  }

  lemma {:induction false} QueueNotIdle(k: KState)
    requires Inv(k, {}) && Kin(k) && NotIdle(k) && !CheckReady(k).faulted
    ensures NotIdle(CheckReady(k))
    decreases |Live(k)|, |k.ready|
  {
    hide Inv, Kin, CheckFrom, NotIdle, Steady, NoRevival, Live;
    if k.ready != [] && !k.faulted {
      var c := k.ready[0];
      ReadySlot(k, c);
      var k1 := CheckPending(k, c);
      HeadProgress(k);
      SteadyKin(k, k1);
      if k1.faulted || (k1.ready != [] && k1.ready[0] == c) {
        CheckNotIdle(k, c, 0);
      } else {
        CheckNotIdle(k, c, 0);
        QueueNotIdle(k1);
      }
    }
  }

  lemma ScheduleNotIdle(k: KState)
    requires Inv(k, {}) && Kin(k) && NotIdle(k) && !k.faulted && !Schedule(k).faulted
    ensures NotIdle(Schedule(k))
  {
    hide Inv, Kin, CheckSuspended, Dispatch, Steady;
    var k1 := CheckSuspended(k, k.suspended);
    SuspendedJobs(k);
    SteadyCheckSuspended(k, k.suspended);
    SteadyKin(k, k1);
    JobsNotIdle(k, k.suspended);
    var k2 := CheckReady(k1);
    QueueNotIdle(k1);
    SteadyCheckReady(k1);
    SteadyInv(k1, k2);
    DispatchNotIdle(k2);
  }

  lemma DispatchNotIdle(k: KState)
    requires Inv(k, {}) && NotIdle(k)
    ensures NotIdle(Dispatch(k))
  {
    IdleIsDaemon(k);
    hide Inv;
  }

  lemma IdleIsDaemon(k: KState)
    requires Inv(k, {})
    ensures k.table[0].daemon && 0 !in k.ready
  {
    hide Pids, Jobs, Reaped, SignalSets, InOrder, NoDup;
  }

  // ----- steps

  /** The part of a step before its call of the scheduler. */
  lemma CallNotIdle(k: KState, a: Action)
    requires Good(k) && Kin(k) && NotIdle(k) && Enabled(k, a) && CallOf(k, a).Calls?
    ensures NotIdle(CallOf(k, a).k) && Kin(CallOf(k, a).k)
  {
    hide Good, Kin, Inv, WakeUp, Preempt, FallAsleep, Exit, Detach, WaitLook, WaitEnding, Calm, Follows, Parking;
    GoodInv(k);
    match a
    case Timer =>
      var k1 := WakeUp(k, SLEEP_SYSCALL);
      CalmWakeUp(k, SLEEP_SYSCALL, {});
      CalmLonely(k, k1);
      CalmQueues(k, k1, {});
      PreemptReady(k1);
      PreemptAlive(k1);
      GoodInv(k1);
      KinFollows(k1, Preempt(k1), {});
    case Sleep(event) =>
      FallAsleepReady(k, event);
      AsleepAlive(k, event);
      KinFollows(k, FallAsleep(k, event), {});
    case ExitCall(status) => LastExit(k, status);
    case Exec(found, background, _) =>
      var k1 := if background then Detach(k) else k;
      if background {
        DetachStale(k);
        DetachNotIdle(k);
      }
      LastExit(k1, 1);
    case Wait(pid, noHang, untraced, _) =>
      var k0 := WaitStart(k, a);
      SetLonely(k, pid);
      SetLonely(k0, pid);
      LookLonely(k0, pid);
      LookNotIdle(k, a);
      var k1 := WaitLook(k0, pid);
      GoodLook(k0, pid);
      GoodInv(k1);
      FallAsleepReady(k1, STATE_CHANGE);
      AsleepAlive(k1, STATE_CHANGE);
      KinFollows(k1, FallAsleep(k1, STATE_CHANGE), {});
  }

  lemma LastExit(k: KState, status: bv32)
    requires Good(k) && Kin(k) && NotIdle(k) && !k.faulted && k.current != 0
    ensures var k' := Exit(k, k.current, ExitStatus(status)); NotIdle(k') && Kin(k')
  {
    hide Good, Kin, Inv, Exit, Follows, Parking;
    GoodInv(k);
    CurrentSlot(k);
    ExitReady(k, ExitStatus(status));
    InvWeaken(k, k.current, {});
    assert {} + {k.current} == {k.current};
    ExitNotIdle(k, k.current, ExitStatus(status));
    KinFollows(k, Exit(k, k.current, ExitStatus(status)), {});
  }

  lemma DetachNotIdle(k: KState)
    requires NotIdle(k)
    ensures NotIdle(Detach(k))
  {
    hide GetProcess;
  }

  lemma {:induction false} FosterForeground(k: KState, zombies: seq<Slot>)
    ensures Foster(k, zombies).foreground == k.foreground
    decreases |zombies|
  {
    hide GetProcess;
    if zombies != [] {
      FosterForeground(FosterOne(k, zombies[0]), zombies[1..]);
    }
  }

  lemma LookNotIdle(k: KState, a: Action)
    requires a.Wait?
    ensures WaitLook(WaitStart(k, a), a.pid).foreground == k.foreground
  {
    hide StoppedChild, Foster;
    var k0 := WaitStart(k, a);
    var k1 := if StoppedChild(k0) != NIL then SetWpid(k0, a.pid) else k0;
    FosterForeground(k1, k1.zombies);
  }

  /** A step without the scheduler. */
  lemma QuietNotIdle(k: KState, a: Action)
    requires Good(k) && Kin(k) && NotIdle(k) && Enabled(k, a) && CallOf(k, a).NoCall?
    ensures NotIdle(Step(k, a))
  {
    hide Good, Kin, Inv, WakeUp, Kill, Calm, WaitLook, WaitEnding, Detach, FindJobFrom, MoveToFore, Reap, ForkStep;
    GoodInv(k);
    match a
    case Timer =>
      CalmWakeUp(k, SLEEP_SYSCALL, {});
      CalmLonely(k, WakeUp(k, SLEEP_SYSCALL));
    case Input =>
      CalmWakeUp(k, KEYBOARD_INPUT, {});
      CalmLonely(k, WakeUp(k, KEYBOARD_INPUT));
    case ControlKey(key) =>
      var f := ForegroundProcess(k);
      if f != NIL {
        CalmKill(k, k.table[f].ppid, k.table[f].pid, key);
        CalmLonely(k, Kill(k, k.table[f].ppid, k.table[f].pid, key));
      }
    case KillCall(pid, sig) =>
      CalmKill(k, k.table[k.current].pid, pid, sig);
      CalmLonely(k, Kill(k, k.table[k.current].pid, pid, sig));
    case Fork(copied) => ForkNotIdle(k, copied);
    case Exec(_, _, _) => DetachNotIdle(k);
    case Wait(_, _, _, _) =>
      LookNotIdle(k, a);
      ReapKeepsForeground();
    case Foreground(jobSpec) =>
      var x := FindJob(k, jobSpec, k.table[k.current].ppid);
      if x != NIL && Parked(k.table[x]) {
        Brought(k, x);
      }
    case Background(_) =>
    case Register(_, _) =>
  }

  lemma ReapKeepsForeground()
    ensures forall k: KState, w: Slot :: Reap(k, w).foreground == k.foreground
  {
  }

  lemma ForkNotIdle(k: KState, copied: bool)
    requires NotIdle(k)
    ensures NotIdle(ForkStep(k, copied))
  {
    hide FindUnused, DefaultHandlers;
  }

  lemma StepNotIdle(k: KState, a: Action)
    requires Good(k) && Kin(k) && NotIdle(k)
    ensures Step(k, a).faulted || NotIdle(Step(k, a))
  {
    hide Good, Kin, NotIdle, Inv, Schedule;
    if Enabled(k, a) {
      if CallOf(k, a).Calls? {
        StepSchedules(k, a);
        CallNotIdle(k, a);
        hide Step, CallOf;
        if !Step(k, a).faulted {
          ScheduleNotIdle(CallOf(k, a).k);
        }
      } else {
        hide CallOf;
        QuietNotIdle(k, a);
      }
    }
  }

  lemma {:induction false} RunNotIdle(k: KState, acts: seq<Action>)
    requires Good(k) && Kin(k) && NotIdle(k)
    ensures Run(k, acts).faulted || NotIdle(Run(k, acts))
    decreases |acts|
  {
    hide Good, Kin, NotIdle, Step;
    if acts != [] {
      GoodStep(k, acts[0]);
      StepKin(k, acts[0]);
      StepNotIdle(k, acts[0]);
      if Step(k, acts[0]).faulted {
        FaultedRun(Step(k, acts[0]), acts[1..]);
      } else {
        RunNotIdle(Step(k, acts[0]), acts[1..]);
      }
    }
  }

  lemma {:induction false} FaultedRun(k: KState, acts: seq<Action>)
    requires Good(k) && k.faulted
    ensures Run(k, acts) == k
    decreases |acts|
  {
    hide Good;
    if acts != [] {
      FaultedRun(k, acts[1..]);
    }
  }

  /** On every run from boot: a control key reaches the process in the foreground, if it lives, and
      nobody else. */
  lemma ReachableControlKey(acts: seq<Action>, key: Signal)
    ensures Good(Boot())
    ensures var k := Run(Boot(), acts); var f := k.foreground; var k' := Step(k, ControlKey(key));
      !k.faulted ==>
        if f == NIL || k.table[f].state == Unused || k.table[f].state == Killed then k' == k
        else ReachesOne(k, k', f, key)
  {
    hide Good, Kin, Boot, Run, Step, ReachesOne;
    GoodBoot();
    BootKin();
    BootNobody();
    RunNotIdle(Boot(), acts);
    var k := Run(Boot(), acts);
    if !k.faulted {
      ControlKeyReaches(k, key);
    }
  }

  lemma BootNobody()
    ensures NotIdle(Boot())
  {
  }
}
