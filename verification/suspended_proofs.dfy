/** The walk over the suspended list in schedule(): checking a job takes at most that job off
    the list and adds nothing, so the link saved beforehand stays valid. */
module SuspendedProofs {
  import opened Sequences
  import opened ProcessModel
  import opened ProcessInvariant
  import opened WakeupProofs
  import opened SignalProofs
  import opened HandlerProofs
  import opened PendingProofs
  import opened Scheduler

  /** The job `j` of `k0` is still stopped with the list untouched, or is off the list and can
      no longer be stopped before its check ends. */
  ghost predicate OffOrStopped(k0: KState, k: KState, j: Slot, n: nat) {
    || (k.table[j].state == Stopped && k.suspended == k0.suspended)
    || (&& k.table[j].state != Stopped && k.suspended == Without(k0.suspended, j)
        && (Alive(k.table[j]) ==> n > SIGCONT && SIGSTOP !in k.table[j].signals && SIGTSTP !in k.table[j].signals))
  }

  /** SIGKILL takes its stopped victim off the suspended list and nobody else. */
  lemma KillUnsuspends(k: KState, j: Slot)
    requires Inv(k, {}) && j != 0 && k.table[j].state == Stopped
    ensures var k' := KillHandler(k, j);
      if k.table[j].pid > 1 then k'.suspended == Without(k.suspended, j) && k'.table[j].state == Killed
      else k' == k
  {
    PidPositive(k, j);
    if k.table[j].pid > 1 {
      hide Inv, Calm, Without, Notify, SwitchParent, KillGroupFrom, WakeUp, Bury, Slay, Ends, Withdraw;
      EndsKillHandler(k, j);
      var pid := k.table[j].pid;
      var status := 0x100 | SignalBits(SIGKILL);
      SlotSound(k, j, {});
      var q := k.table[j].(status := status);
      var k1 := Put(k, j, q);
      CalmPut(k, j, q, {});
      CalmInv(k, k1, {});
      var parent := ParentOf(k1, j);
      var k2 := Notify(k1, parent, status);
      EndsNotify(k1, parent, status, {});
      CalmThen(k, k1, k2, {});
      CalmQueues(k, k2, {});
      CalmInv(k, k2, {});
      StoppedStays(k, k2, j);
      SlaySuspended(k2, j, parent, pid);
    } else {
      KillSpares(k, j);
    }
  }

  lemma StoppedStays(k: KState, k': KState, j: Slot)
    requires Calm(k, k', {}) && k.table[j].state == Stopped
    ensures k'.table[j].state == Stopped && k'.table[j].pid == k.table[j].pid
  {
    CalmEntry(k, k', j, {});
    hide Calm;
  }

  lemma SlaySuspended(k: KState, j: Slot, parent: Link, pid: int)
    requires Inv(k, {}) && j != 0 && k.table[j].state == Stopped && k.table[j].pid == pid
    ensures Bury(Slay(Withdraw(k, j, parent), j, pid), j).suspended == Without(k.suspended, j)
  {
    hide Inv, Calm, Without, SwitchParent, KillGroupFrom, WakeUp, Ends;
    var k3 := Withdraw(k, j, parent);
    assert k3 == k.(suspended := Without(k.suspended, j));
    EndsWithdraw(k, j, parent);
    EndsInv(k, k3, {j});
    var k4 := SwitchParent(k3, pid, 1, false);
    CalmSwitchParent(k3, pid, false, {j});
    CalmQueues(k3, k4, {j});
    CalmInv(k3, k4, {j});
    CalmEntry(k3, k4, j, {j});
    var k5 := KillGroup(k4, pid, SIGKILL);
    CalmKillGroupFrom(k4, pid, SIGKILL, 2, {j});
    CalmQueues(k4, k5, {j});
    CalmInv(k4, k5, {j});
    WaitNoDup(k5, {j});
    var k6 := Slay(k3, j, pid);
    assert k6.suspended == k5.suspended && k6.waiting == k5.waiting;
    WakeUpExact(k6.(zombies := k6.zombies + [j]), STATE_CHANGE);
  }

  lemma WaitNoDup(k: KState, limbo: set<Slot>)
    requires Inv(k, limbo)
    ensures NoDup(k.waiting)
  {
  }

  /** SIGCONT takes the job it resumes off the suspended list and nobody else. */
  lemma ContinueUnsuspends(k: KState, j: Slot)
    requires k.table[j].state == Stopped && !k.faulted
    ensures var k' := ContinueHandler(k, j);
      k'.faulted || k' == k || (k'.suspended == Without(k.suspended, j) && k'.table[j].state != Stopped
        && k'.table[j].signals <= k.table[j].signals + {SIGCHLD})
  {
    hide Resume, PauseForeground, FinishContinue, Without;
    var k1 := Resume(k, j);
    ResumeList(k, j);
    FinishList(k1, j);
    if k1.foreground != NIL {
      PauseList(k1, j);
      FinishList(PauseForeground(k1).(foreground := j), j);
    } else {
      FinishList(k1.(foreground := j), j);
    }
  }

  lemma ResumeList(k: KState, j: Slot)
    ensures Resume(k, j).suspended == Without(k.suspended, j) && Resume(k, j).table[j].signals == k.table[j].signals
    ensures Resume(k, j).table[j].state != Stopped && Resume(k, j).faulted == k.faulted
  {
    hide Without;
  }

  lemma FinishList(k: KState, j: Slot)
    ensures var k' := FinishContinue(k, j);
      && k'.suspended == k.suspended && k'.table[j].state == k.table[j].state
      && k'.table[j].signals <= k.table[j].signals + {SIGCHLD} && k'.faulted == k.faulted
  {
    hide GetProcess, ContinuedStatus;
  }

  lemma PauseList(k: KState, j: Slot)
    requires k.foreground != NIL && k.table[j].state != Stopped
    ensures var k' := PauseForeground(k);
      && k'.suspended == k.suspended && k'.table[j].state != Stopped && k'.table[j].signals == k.table[j].signals
      && k'.faulted == k.faulted
  {
    hide Without;
  }

  lemma SleepList(k: KState, j: Slot, userHandled: bool)
    ensures var k' := SleepAgain(k, j, userHandled);
      && k'.suspended == k.suspended && k'.table[j].signals == k.table[j].signals
      && (k'.table[j].state == k.table[j].state || k'.table[j].state == Asleep)
      && (j !in k.ready ==> k' == k)
  {
    hide Without;
  }

  /** A signal above the stop signals has no handler in the kernel. */
  lemma QuietSignal(k: KState, j: Slot, n: Signal)
    requires n > SIGTSTP
    ensures var k' := Handle(k, j, n);
      && k'.suspended == k.suspended && k'.table[j].state == k.table[j].state
      && k'.table[j].signals == k.table[j].signals && k'.faulted == k.faulted
  {
    hide Terminate, KillHandler, StopHandler, ContinueHandler, DefaultHandlers;
  }

  /** SIGKILL and SIGCONT for a stopped job, whoever handles them. */
  lemma HandleStopped(k: KState, j: Slot, n: Signal)
    requires Inv(k, {}) && j != 0 && k.table[j].state == Stopped && !k.faulted && n in k.table[j].signals
    requires n == SIGKILL || n == SIGCONT
    ensures var k' := Handle(k, j, n);
      || k'.faulted
      || (k'.table[j].state == Stopped && k'.suspended == k.suspended)
      || (&& k'.table[j].state != Stopped && k'.suspended == Without(k.suspended, j)
          && (Alive(k'.table[j]) ==> n == SIGCONT && k'.table[j].signals <= k.table[j].signals + {SIGCHLD}))
  {
    hide Inv, Without, KillHandler, ContinueHandler, Terminate, StopHandler, DefaultHandlers;
    if n == SIGKILL {
      KillUnsuspends(k, j);
    } else {
      ContinueUnsuspends(k, j);
    }
  }

  /** What handling one signal does to the list when the job started out stopped. */
  lemma HandleOffOrStopped(k0: KState, k: KState, j: Slot, n: Signal)
    requires Inv(k, {}) && j != 0 && Parked(k.table[j]) && OffOrStopped(k0, k, j, n) && !k.faulted
    requires n in k.table[j].signals && (k.table[j].state == Stopped ==> n == SIGKILL || n == SIGCONT)
    ensures var k' := Handle(k, j, n);
      || k'.faulted
      || (k'.table[j].state == Stopped && k'.suspended == k0.suspended)
      || (&& k'.table[j].state != Stopped && k'.suspended == Without(k0.suspended, j)
          && (Alive(k'.table[j]) ==>
                n >= SIGCONT && SIGSTOP !in k'.table[j].signals && SIGTSTP !in k'.table[j].signals))
  {
    hide Inv, Without, Handle;
    SlotSound(k, j, {});
    if k.table[j].state == Stopped {
      HandleStopped(k, j, n);
    } else {
      QuietSignal(k, j, n);
    }
  }

  lemma TakeOffOrStopped(k0: KState, k: KState, j: Slot, n: Signal)
    requires Inv(k, {}) && j != 0 && Parked(k.table[j]) && OffOrStopped(k0, k, j, n) && !k.faulted
    requires n in k.table[j].signals && (k.table[j].state == Stopped ==> n == SIGKILL || n == SIGCONT)
    ensures var k' := TakeSignal(k, j, n); k'.faulted || OffOrStopped(k0, k', j, n + 1)
  {
    hide Inv, Without, Handle, SleepAgain, Steady;
    HandleOffOrStopped(k0, k, j, n);
    var k1 := Handle(k, j, n);
    if !k1.faulted {
      SteadyHandle(k, j, n);
      SteadyInv(k, k1);
      if k1.table[j].state == Stopped || !Alive(k1.table[j]) {
        NotReady(k1, j);
      }
      var k2 := Put(k1, j, k1.table[j].(signals := Toggle(k1.table[j].signals, n)));
      SleepList(k2, j, k.table[j].handlers[n].UserHandler?);
    }
  }

  lemma NotReady(k: KState, j: Slot)
    requires Inv(k, {}) && j != 0 && (k.table[j].state == Stopped || !Alive(k.table[j]))
    ensures j !in k.ready
  {
    hide NoDup, Data, InOrder;
  }

  lemma {:induction false} CheckOffOrStopped(k0: KState, k: KState, j: Slot, n: nat)
    requires n <= TOTAL_SIGNALS && Inv(k, {}) && j != 0 && OffOrStopped(k0, k, j, n)
    requires k.table[j].state != Running && k.table[j].state != Init
    ensures var k' := CheckFrom(k, j, n); k'.faulted || OffOrStopped(k0, k', j, TOTAL_SIGNALS)
    decreases TOTAL_SIGNALS - n
  {
    hide Inv, TakeSignal, Steady, Without;
    if n == TOTAL_SIGNALS || k.faulted || !Alive(k.table[j]) {
    } else if n !in k.table[j].signals || (k.table[j].state == Stopped && n != SIGKILL && n != SIGCONT) {
      CheckOffOrStopped(k0, k, j, n + 1);
    } else {
      TakeOffOrStopped(k0, k, j, n);
      SteadyTake(k, j, n);
      var k1 := TakeSignal(k, j, n);
      SteadyInv(k, k1);
      SteadyEntry(k, k1, j);
      if !k1.faulted {
        CheckOffOrStopped(k0, k1, j, n + 1);
      }
    }
  }

  /** Checking a suspended job leaves the list as it was or takes just that job off. */
  lemma CheckingUnlinksOnlyItself(k: KState, j: Slot)
    requires Inv(k, {}) && j in k.suspended && !k.faulted
    ensures var k' := CheckPending(k, j);
      k'.faulted || k'.suspended == k.suspended || k'.suspended == Without(k.suspended, j)
  {
    SuspendedJobs(k);
    hide Inv, CheckFrom, Without;
    CheckOffOrStopped(k, k, j, 0);
  }
}
