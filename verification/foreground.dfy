/** The foreground pointer: when it leads to a dead process, when it is NULL, and for which steps
    a process that is no daemon runs with nobody in the foreground. */
module Foreground {
  import opened Sequences
  import opened ProcessModel
  import opened ProcessInvariant
  import opened WakeupProofs
  import opened SignalProofs
  import opened HandlerProofs
  import opened PendingProofs
  import opened ExitEffects
  import opened Family
  import opened StopEffects
  import opened KillEffects

  /** The pointer leads to a slot without a living process. */
  predicate Stale(k: KState) {
    k.foreground != NIL && !Alive(k.table[k.foreground])
  }

  // ----- the guards

  /** The parent that would inherit the foreground is dead, or is `i` itself (only init can be). */
  predicate HeirIsDead(k: KState, i: Slot) {
    var parent := ParentOf(k, i);
    parent != NIL && !k.table[parent].daemon && (parent == i || k.table[parent].state == Killed)
  }

  /** exit of a holder with a dead heir, or of the parent of a holder that is stopped. */
  predicate ExitLoses(k: KState, i: Slot) {
    k.foreground != NIL &&
    if k.foreground == i then HeirIsDead(k, i)
    else k.table[k.foreground].state == Stopped && k.table[k.foreground].ppid == k.table[i].pid
  }

  /** SIGKILL for a holder that is stopped, or has a dead heir. */
  predicate KillLoses(k: KState, i: Slot) {
    k.foreground == i && (k.table[i].state == Stopped || HeirIsDead(k, i))
  }

  /** A stop of a holder with a dead heir. */
  predicate StopLoses(k: KState, i: Slot) {
    k.foreground == i && k.table[i].state != Stopped && HeirIsDead(k, i)
  }

  /** The kernel's handler of `sig` leaves the foreground with a dead process. */
  predicate Loses(k: KState, i: Slot, sig: Signal) {
    && k.table[i].handlers[sig] == KernelHandler
    && (if sig == SIGHUP || sig == SIGINT || sig == SIGABRT || sig == SIGTERM then ExitLoses(k, i)
        else if sig == SIGKILL then k.table[i].pid > 1 && KillLoses(k, i)
        else if sig == SIGSTOP || sig == SIGTSTP then k.table[i].pid > 1 && StopLoses(k, i)
        else false)
  }

  // ----- the handlers

  /** What becomes of the pointer when `i` gives way and exactly the processes outside `dead` live. */
  lemma YieldStale(k: KState, k': KState, limbo: set<Slot>, i: Slot, dead: set<Slot>)
    requires Inv(k, limbo) && Kin(k) && i != 0 && Alive(k.table[i])
    requires k'.foreground == YieldForeground(k, i, ParentOf(k, i)).foreground
    requires forall j: Slot :: Alive(k'.table[j]) <==> Alive(k.table[j]) && j !in dead
    ensures k.foreground == i ==>
      (Stale(k') <==> (var p := ParentOf(k, i);
        p != NIL && !k.table[p].daemon && (p in dead || k.table[p].state == Killed)))
    ensures k.foreground != i ==> (Stale(k') <==> Stale(k) || (k.foreground != NIL && k.foreground in dead))
  {
    hide FindPid;
    if k.foreground != NIL && k.table[k.foreground].pid == k.table[i].pid {
      OnePid(k, limbo, i, k.foreground);
    }
    hide Inv, Kin;
  }

  /** The stopped children of a process. */
  ghost function StoppedChildren(k: KState, i: Slot): set<Slot> {
    set j: Slot | 0 <= j < TABLE_SIZE && k.table[j].state == Stopped && k.table[j].ppid == k.table[i].pid
  }

  /** A parent is not among the stopped children of its child. */
  lemma HeirSurvives(k: KState, limbo: set<Slot>, i: Slot)
    requires Inv(k, limbo) && Kin(k) && i != 0 && Alive(k.table[i])
    ensures ParentOf(k, i) in StoppedChildren(k, i) ==> ParentOf(k, i) == i
  {
    hide FindPid;
    var parent := ParentOf(k, i);
    if parent in StoppedChildren(k, i) {
      hide Inv;
      if parent != i && k.table[i].ppid == 1 {
        OnePid(k, limbo, i, parent);
      }
    }
  }

  lemma StaleExit(k: KState, i: Slot, status: bv32)
    requires Inv(k, {i}) && Kin(k) && i != 0 && Alive(k.table[i]) && k.table[i].state != Init && i !in k.suspended
    ensures Stale(Exit(k, i, status)) <==> Stale(k) || ExitLoses(k, i)
  {
    var dead := {i} + StoppedChildren(k, i);
    hide Inv, Kin, Exit, Stage, YieldForeground, GetProcess;
    ExitExact(k, i, status);
    var k' := Exit(k, i, status);
    assert forall j: Slot :: Alive(k'.table[j]) <==> Alive(k.table[j]) && j !in dead;
    YieldStale(k, k', {i}, i, dead);
    HeirSurvives(k, {i}, i);
  }

  lemma StaleTerminate(k: KState, i: Slot, sig: Signal)
    requires Inv(k, {}) && Kin(k) && i != 0 && (k.table[i].state == Ready || k.table[i].state == Asleep)
    ensures Stale(Terminate(k, i, sig)) <==> Stale(k) || ExitLoses(k, i)
  {
    hide Inv, Kin, Exit, LeaveActive, Ends, GetProcess;
    var k1 := LeaveActive(k, i);
    EndsLeaveActive(k, i);
    EndsInv(k, k1, {i});
    LeavesTable(k, i);
    KinTable(k, k1);
    StaleExit(k1, i, 0x100 | (sig as bv32));
    SameParent(k, k1, i);
  }

  lemma KinTable(k: KState, k': KState)
    requires Kin(k) && k'.table == k.table && k'.reaped == k.reaped
    ensures Kin(k')
  {
  }

  lemma SameParent(k: KState, k': KState, i: Slot)
    requires k'.table == k.table
    ensures ParentOf(k', i) == ParentOf(k, i)
  {
  }

  lemma StaleKill(k: KState, i: Slot)
    requires Inv(k, {}) && Kin(k) && i != 0 && Parked(k.table[i]) && k.table[i].pid > 1
    ensures Stale(KillHandler(k, i)) <==> Stale(k) || KillLoses(k, i)
  {
    hide Inv, Kin, KillHandler, YieldForeground, GetProcess;
    KillAlive(k, i);
    NotOwnParent(k, i);
    var k' := KillHandler(k, i);
    if k.table[i].state != Stopped {
      assert forall j: Slot :: Alive(k'.table[j]) <==> Alive(k.table[j]) && j !in {i};
      YieldStale(k, k', {}, i, {i});
    }
  }

  lemma StaleStop(k: KState, i: Slot)
    requires Inv(k, {}) && Kin(k) && i != 0 && (k.table[i].state == Ready || k.table[i].state == Asleep)
    requires k.table[i].pid > 1
    ensures Stale(StopHandler(k, i)) <==> Stale(k) || StopLoses(k, i)
  {
    hide Inv, Kin, StopHandler, YieldForeground, GetProcess;
    StopAlive(k, i);
    StopGivesWay(k, i);
    NotOwnParent(k, i);
    YieldStale(k, StopHandler(k, i), {}, i, {});
  }

  lemma TakenOver(k: KState, i: Slot)
    requires Inv(k, {}) && k.table[i].state == Stopped && CanTakeOver(k, i) && !k.table[i].daemon
    ensures !Stale(k)
  {
    hide Inv;
    if k.foreground in k.ready {
      ReadySlot(k, k.foreground);
    } else if k.foreground != NIL && IsLast(k.waiting, k.foreground) {
      Sleeping(k, k.foreground);
    }
  }

  /** A continued process takes a pointer to a living process, or leaves the pointer alone. */
  lemma StaleContinue(k: KState, i: Slot)
    requires Inv(k, {}) && i != 0 && Occupied(k.table[i]) && !k.faulted && !ContinueHandler(k, i).faulted
    ensures Stale(ContinueHandler(k, i)) <==> Stale(k)
  {
    hide Inv, Resume, FinishContinue, PauseForeground, GetProcess, CanTakeOver;
    if k.table[i].state == Stopped && k.table[i].pid > 1 {
      ContinueFaultsIff(k, i);
      ContinueExact(k, i);
      if k.table[i].daemon {
        ResumeExact(k, i);
        FinishExact(Resume(k, i), i);
      } else {
        TakenOver(k, i);
      }
    } else {
      PidPositive(k, i);
    }
  }

  lemma StaleDefault(k: KState, i: Slot, sig: Signal)
    requires Inv(k, {}) && Kin(k) && i != 0 && Parked(k.table[i]) && !k.faulted
    requires k.table[i].state == Stopped ==> sig == SIGKILL || sig == SIGCONT
    requires k.table[i].handlers[sig] == KernelHandler && !DefaultHandler(k, i, sig).faulted
    ensures Stale(DefaultHandler(k, i, sig)) <==> Stale(k) || Loses(k, i, sig)
  {
    hide Inv, Kin, Terminate, KillHandler, StopHandler, ContinueHandler, ExitLoses, KillLoses, StopLoses;
    PidPositive(k, i);
    if sig == SIGHUP || sig == SIGINT || sig == SIGABRT || sig == SIGTERM {
      StaleTerminate(k, i, sig);
    } else if sig == SIGKILL {
      if k.table[i].pid > 1 {
        StaleKill(k, i);
      } else {
        SparesInit(k, i);
      }
    } else if sig == SIGSTOP || sig == SIGTSTP {
      if k.table[i].pid > 1 {
        StaleStop(k, i);
      } else {
        SparesInit(k, i);
      }
    } else if sig == SIGCONT {
      StaleContinue(k, i);
    }
  }

  /** Init is neither killed nor stopped. */
  lemma SparesInit(k: KState, i: Slot)
    requires k.table[i].pid == 1
    ensures KillHandler(k, i) == k && StopHandler(k, i) == k
  {
  }

  lemma StaleHandle(k: KState, i: Slot, sig: Signal)
    requires Inv(k, {}) && Kin(k) && i != 0 && Parked(k.table[i]) && !k.faulted
    requires k.table[i].state == Stopped ==> sig == SIGKILL || sig == SIGCONT
    requires !Handle(k, i, sig).faulted
    ensures Stale(Handle(k, i, sig)) <==> Stale(k) || Loses(k, i, sig)
  {
    hide Inv, Kin, DefaultHandler, ContinueHandler, DefaultHandlers, ExitLoses, KillLoses, StopLoses;
    match k.table[i].handlers[sig]
    case NoHandler =>
    case KernelHandler => StaleDefault(k, i, sig);
    case UserHandler(_) =>
      if sig == SIGCONT {
        StaleContinue(k, i);
      }
  }

  /** One pending signal, whatever its handler: the pointer leads to a dead process afterwards if
      and only if it did before or one of the guards is met. */
  lemma StaleTake(k: KState, i: Slot, sig: Signal)
    requires Inv(k, {}) && Kin(k) && i != 0 && Parked(k.table[i]) && !k.faulted && sig in k.table[i].signals
    requires k.table[i].state == Stopped ==> sig == SIGKILL || sig == SIGCONT
    requires !TakeSignal(k, i, sig).faulted
    ensures Stale(TakeSignal(k, i, sig)) <==> Stale(k) || Loses(k, i, sig)
  {
    hide Inv, Kin, Handle, Toggle, SleepAgain, Loses, Steady, Calm;
    StaleHandle(k, i, sig);
    SteadyHandle(k, i, sig);
    var k1 := Handle(k, i, sig);
    SteadyInv(k, k1);
    SlotSound(k1, i, {});
    ToggleExclusive(k1.table[i].signals, sig);
    var q := k1.table[i].(signals := Toggle(k1.table[i].signals, sig));
    CalmPut(k1, i, q, {});
    CalmInv(k1, Put(k1, i, q), {});
    StaleSleep(Put(k1, i, q), i, k.table[i].handlers[sig].UserHandler?);
  }

  lemma StaleSleep(k: KState, i: Slot, userHandled: bool)
    requires Inv(k, {})
    ensures Stale(SleepAgain(k, i, userHandled)) <==> Stale(k)
  {
    hide Inv, Without;
    if i in k.ready {
      ReadySlot(k, i);
    }
  }
}
