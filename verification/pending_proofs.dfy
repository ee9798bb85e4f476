/** SIGCONT, outside the branch that breaks the queues, and check_pending_signals keep the
    invariant. */
module PendingProofs {
  import opened Sequences
  import opened ProcessModel
  import opened ProcessInvariant
  import opened WakeupProofs
  import opened SignalProofs
  import opened HandlerProofs

  /** The invariant holds and identities are kept; a stopped process may have resumed. */
  ghost predicate Steady(k: KState, k': KState) {
    Inv(k', {}) && Follows(k, k')
  }

  lemma SteadyThen(a: KState, b: KState, c: KState)
    requires Steady(a, b) && Steady(b, c)
    ensures Steady(a, c)
  {
    hide Inv, Follows;
    FollowsTransitive(a, b, c);
  }

  lemma SteadySelf(k: KState)
    requires Inv(k, {})
    ensures Steady(k, k)
  {
    SoundSelf(k, {});
    hide Inv, Follows;
  }

  lemma SteadyInv(k: KState, k': KState)
    requires Steady(k, k')
    ensures Inv(k', {})
  {
    hide Inv;
  }

  lemma SteadyEntry(k: KState, k': KState, i: Slot)
    requires Steady(k, k')
    ensures EntryFollows(k.table[i], k'.table[i])
  {
    hide Inv;
  }

  lemma SoundSteady(k: KState, k': KState)
    requires Sound(k, k', {})
    ensures Steady(k, k')
  {
    hide Inv, Follows;
  }

  lemma CalmSteady(k: KState, k': KState)
    requires Calm(k, k', {})
    ensures Steady(k, k')
  {
    hide Inv, Follows;
  }

  // ----- SIGCONT

  lemma SteadyResume(k: KState, i: Slot)
    requires Inv(k, {}) && i != 0 && k.table[i].state == Stopped
    ensures Steady(k, Resume(k, i)) && Resume(k, i).faulted == k.faulted
    ensures Resume(k, i).foreground == k.foreground
  {
    ParkedSlot(k, i);
    hide Inv, Follows, NoRevival, Without;
    assert {} + {i} == {i} && {i} - {i} == {};
    var k1 := k.(suspended := Without(k.suspended, i));
    LeaveSuspended(k, i, {});
    if k1.table[i].event == NONE {
      JoinReady(k1, i, {i});
      FollowsTransitive(k, k1, MakeReady(k1, i));
    } else {
      var p := k1.table[i];
      var event := if !p.daemon && p.event == DAEMON_INPUT then KEYBOARD_INPUT else p.event;
      var k2 := Put(k1, i, p.(event := event));
      InvPut(k1, i, p.(event := event), {i});
      FollowsTransitive(k, k1, k2);
      JoinWaiting(k2, i, {i});
      FollowsTransitive(k, k2, MakeAsleep(k2, i));
    }
  }

  /** Taking a process off the ready queue and putting it to sleep on an event. */
  function Nap(k: KState, f: Slot, event: int): KState {
    var k1 := k.(ready := Without(k.ready, f));
    MakeAsleep(Put(k1, f, k1.table[f].(event := event)), f)
  }

  lemma SoundNap(k: KState, f: Slot, event: int)
    requires Inv(k, {}) && f in k.ready
    ensures Sound(k, Nap(k, f, event), {})
  {
    ReadySlot(k, f);
    SlotSound(k, f, {});
    hide Inv, Follows, NoRevival, Without;
    assert {} + {f} == {f} && {f} - {f} == {};
    var k1 := k.(ready := Without(k.ready, f));
    LeaveReady(k, f, {});
    var q := k1.table[f].(event := event);
    var k2 := Put(k1, f, q);
    WithoutReady(k, f);
    InvPut(k1, f, q, {f});
    JoinWaiting(k2, f, {f});
    SoundThen(k, k1, k2, {f}, {f});
    SoundThen(k, k2, MakeAsleep(k2, f), {f}, {});
  }

  lemma WithoutReady(k: KState, f: Slot)
    requires Inv(k, {})
    ensures f !in Without(k.ready, f)
  {
    WithoutNoDup(k.ready, f);
  }

  lemma ReadySlot(k: KState, f: Slot)
    requires Inv(k, {}) && f in k.ready
    ensures f != 0 && k.table[f].state == Ready && f !in k.suspended && f !in k.waiting && f !in k.zombies
  {
    hide NoDup, Data, InOrder;
  }

  /** The last sleeper is pushed again: it only gets another event. */
  lemma SoundRepush(k: KState, f: Slot)
    requires Inv(k, {}) && IsLast(k.waiting, f) && k.foreground == f
    ensures PauseForeground(k) == Put(k, f, k.table[f].(event := FG_PAUSED))
    ensures Sound(k, PauseForeground(k), {})
  {
    Sleeping(k, f);
    SlotSound(k, f, {});
    PushedLast(k.waiting, f);
    hide Inv, Follows, NoRevival;
    InvPut(k, f, k.table[f].(event := FG_PAUSED), {});
  }

  lemma Sleeping(k: KState, f: Slot)
    requires Inv(k, {}) && f in k.waiting
    ensures f != 0 && k.table[f].state == Asleep && f !in k.ready && NoDup(k.waiting)
  {
    hide NoDup, Data, InOrder;
  }

  lemma SoundPause(k: KState)
    requires Inv(k, {}) && k.foreground != NIL && PauseIsSafe(k)
    ensures Sound(k, PauseForeground(k), {})
    ensures PauseForeground(k).faulted == k.faulted
  {
    if k.foreground in k.ready {
      SoundPauseReady(k);
    } else {
      SoundRepush(k, k.foreground);
    }
  }

  lemma SoundPauseReady(k: KState)
    requires Inv(k, {}) && k.foreground != NIL && k.foreground in k.ready
    ensures Sound(k, PauseForeground(k), {})
  {
    hide Inv, Sound, Without, Pushed;
    var f: Slot := k.foreground;
    ReadySlot(k, f);
    PushedNew(k.waiting, f);
    SoundNap(k, f, FG_PAUSED);
    var q := k.table[f].(event := FG_PAUSED);
    assert k.table[f := q][f := q.(state := Asleep)] == k.table[f := q.(state := Asleep)];
    assert PauseForeground(k) == Nap(k, f, FG_PAUSED);
  }

  lemma CalmFinishContinue(k: KState, i: Slot)
    requires Inv(k, {})
    ensures Calm(k, FinishContinue(k, i), {})
  {
    hide Inv, Calm, ContinuedStatus, GetProcess;
    SlotSound(k, i, {});
    var q := k.table[i].(status := ContinuedStatus(k.table[i].status));
    var k1 := Put(k, i, q);
    CalmPut(k, i, q, {});
    var parent := ParentOf(k1, i);
    if parent != NIL && k1.table[parent].state != Killed {
      CalmInv(k, k1, {});
      CalmAddSignal(k1, parent, SIGCHLD, {});
      CalmThen(k, k1, FinishContinue(k, i), {});
    }
  }

  lemma SteadyContinue(k: KState, i: Slot)
    requires Inv(k, {}) && i != 0
    ensures Steady(k, ContinueHandler(k, i))
  {
    hide Inv, Steady, Calm, Sound, Resume, PauseForeground, FinishContinue, Ends;
    SteadySelf(k);
    if k.table[i].pid != 0 && k.table[i].pid != 1 && k.table[i].state == Stopped {
      var k1 := Resume(k, i);
      SteadyResume(k, i);
      SteadyInv(k, k1);
      if k1.table[i].daemon {
        SteadyFinish(k, k1, i);
      } else if !PauseIsSafe(k1) {
        SteadyFault(k);
      } else {
        var k2 := if k1.foreground != NIL then PauseForeground(k1) else k1;
        if k1.foreground != NIL {
          SoundPause(k1);
          SoundSteady(k1, k2);
          SteadyThen(k, k1, k2);
        }
        SteadyInv(k, k2);
        EndsForeground(k2, i, {});
        EndsSound(k2, k2.(foreground := i), {});
        SoundSteady(k2, k2.(foreground := i));
        SteadyThen(k, k2, k2.(foreground := i));
        SteadyFinish(k, k2.(foreground := i), i);
      }
    }
  }

  lemma SteadyFinish(k: KState, k1: KState, i: Slot)
    requires Steady(k, k1)
    ensures Steady(k, FinishContinue(k1, i))
  {
    hide Steady, Calm, FinishContinue, Inv;
    SteadyInv(k, k1);
    CalmFinishContinue(k1, i);
    CalmSteady(k1, FinishContinue(k1, i));
    SteadyThen(k, k1, FinishContinue(k1, i));
  }

  lemma SteadyFault(k: KState)
    requires Inv(k, {})
    ensures Steady(k, k.(faulted := true))
  {
    hide Holds, Pids, Reaped, Running1, SignalSets, Jobs, InOrder;
  }

  // ----- the signal being handled stays pending until its bit is cleared

  lemma PendingGiveWay(k: KState, i: Slot, parent: Link)
    requires NoDup(k.waiting)
    ensures GiveWay(k, i, parent).table[i].signals == k.table[i].signals
    ensures NoDup(GiveWay(k, i, parent).waiting)
  {
    var k1 := YieldForeground(k, i, parent);
    WakeUpExact(k1, FG_PAUSED);
    SelectNoDup(k1.table, k1.waiting, FG_PAUSED, false);
    hide WakeUp;
  }

  lemma {:induction false} SelectNoDup(t: Table, q: seq<Slot>, event: int, wanted: bool)
    requires NoDup(q)
    ensures NoDup(Select(t, q, event, wanted))
  {
    if q != [] {
      var rest := q[1..];
      assert forall j :: 0 <= j < |rest| ==> rest[j] == q[j+1];
      SelectNoDup(t, rest, event, wanted);
      SelectMembers(t, rest, event, wanted);
    }
  }

  lemma PendingReportStop(k: KState, i: Slot, parent: Link)
    ensures k.table[i].signals <= ReportStop(k, i, parent).table[i].signals
    ensures ReportStop(k, i, parent).waiting == k.waiting
  {
  }

  lemma PendingSuspend(k: KState, i: Slot)
    requires NoDup(k.waiting)
    ensures Suspend(k, i).table[i].signals == k.table[i].signals
  {
    var k1 := Put(k, i, k.table[i].(state := Stopped));
    WakeUpExact(k1.(suspended := k1.suspended + [i]), STATE_CHANGE);
    hide WakeUp;
  }

  lemma PendingStop(k: KState, i: Slot)
    requires Inv(k, {})
    ensures k.table[i].signals <= StopHandler(k, i).table[i].signals
  {
    if k.table[i].pid != 0 && k.table[i].pid != 1 && k.table[i].state != Stopped {
      WaitingNoDup(k, i);
      hide Inv, GiveWay, Suspend, ReportStop, LeaveActive;
      var k1 := LeaveActive(k, i);
      var k2 := Put(k1, i, k1.table[i].(status := StoppedStatus(k1.table[i].status)));
      var parent := ParentOf(k2, i);
      PendingReportStop(k2, i, parent);
      PendingGiveWay(ReportStop(k2, i, parent), i, parent);
      PendingSuspend(GiveWay(ReportStop(k2, i, parent), i, parent), i);
    }
  }

  lemma WaitingNoDup(k: KState, i: Slot)
    requires Inv(k, {})
    ensures NoDup(LeaveActive(k, i).waiting) && LeaveActive(k, i).table == k.table
  {
    WithoutNoDup(k.waiting, i);
  }

  lemma PendingContinue(k: KState, i: Slot)
    ensures k.table[i].signals <= ContinueHandler(k, i).table[i].signals
  {
    hide Resume, PauseForeground, FinishContinue;
    var k1 := Resume(k, i);
    PendingResume(k, i);
    PendingFinish(k1, i);
    var k2 := if k1.foreground != NIL then PauseForeground(k1) else k1;
    PendingPause(k1, i);
    PendingFinish(k2.(foreground := i), i);
  }

  lemma PendingResume(k: KState, i: Slot)
    ensures Resume(k, i).table[i].signals == k.table[i].signals
  {
    hide Without;
  }

  lemma PendingPause(k: KState, i: Slot)
    ensures k.foreground != NIL ==> PauseForeground(k).table[i].signals == k.table[i].signals
  {
    hide Without;
  }

  lemma PendingFinish(k: KState, i: Slot)
    ensures k.table[i].signals <= FinishContinue(k, i).table[i].signals
  {
    hide GetProcess, ContinuedStatus;
  }

  // ----- check_pending_signals

  lemma SteadyDefault(k: KState, i: Slot, sig: Signal)
    requires Inv(k, {}) && i != 0 && Parked(k.table[i])
    requires k.table[i].state == Stopped ==> sig == SIGKILL || sig == SIGCONT
    ensures Steady(k, DefaultHandler(k, i, sig))
    ensures sig in {SIGCONT, SIGSTOP, SIGTSTP} ==> k.table[i].signals <= DefaultHandler(k, i, sig).table[i].signals
  {
    hide Inv, Steady, Sound, Ends, Terminate, KillHandler, StopHandler, ContinueHandler;
    if sig == SIGHUP || sig == SIGINT || sig == SIGABRT || sig == SIGTERM {
      EndsTerminate(k, i, sig);
      EndsSound(k, Terminate(k, i, sig), {});
      SoundSteady(k, Terminate(k, i, sig));
    } else if sig == SIGKILL {
      EndsKillHandler(k, i);
      EndsSound(k, KillHandler(k, i), {});
      SoundSteady(k, KillHandler(k, i));
    } else if sig == SIGSTOP || sig == SIGTSTP {
      SoundStop(k, i);
      SoundSteady(k, StopHandler(k, i));
      PendingStop(k, i);
    } else if sig == SIGCONT {
      SteadyContinue(k, i);
      PendingContinue(k, i);
    } else {
      SteadySelf(k);
    }
  }

  lemma SteadyHandle(k: KState, i: Slot, sig: Signal)
    requires Inv(k, {}) && i != 0 && Parked(k.table[i])
    requires k.table[i].state == Stopped ==> sig == SIGKILL || sig == SIGCONT
    ensures Steady(k, Handle(k, i, sig))
    ensures sig in {SIGCONT, SIGSTOP, SIGTSTP} ==> k.table[i].signals <= Handle(k, i, sig).table[i].signals
  {
    hide Inv, Steady, DefaultHandler, ContinueHandler, Calm;
    match k.table[i].handlers[sig]
    case NoHandler => SteadySelf(k);
    case KernelHandler => SteadyDefault(k, i, sig);
    case UserHandler(_) =>
      SteadySelf(k);
      SteadyContinue(k, i);
      PendingContinue(k, i);
      var k1 := if sig == SIGCONT then ContinueHandler(k, i) else k;
      SteadyInv(k, k1);
      SlotSound(k1, i, {});
      var q := k1.table[i].(handlers := k1.table[i].handlers[sig := DefaultHandlers()[sig]]);
      CalmPut(k1, i, q, {});
      CalmSteady(k1, Put(k1, i, q));
      SteadyThen(k, k1, Put(k1, i, q));
  }

  /** Clearing by exclusive-or is safe: the bit is still set, or excludes nothing. */
  lemma ToggleExclusive(s: set<Signal>, sig: Signal)
    requires Exclusive(s) && (sig in {SIGCONT, SIGSTOP, SIGTSTP} ==> sig in s)
    ensures Exclusive(Toggle(s, sig))
  {
  }

  lemma SoundSleepAgain(k: KState, i: Slot, userHandled: bool)
    requires Inv(k, {})
    ensures Sound(k, SleepAgain(k, i, userHandled), {})
  {
    hide Inv, Sound, Without;
    SoundSelf(k, {});
    if i in k.ready && k.table[i].event != NONE && !userHandled {
      SoundNap(k, i, k.table[i].event);
      var p := k.table[i];
      assert k.table[i := p.(event := p.event)] == k.table;
      assert SleepAgain(k, i, userHandled) == Nap(k, i, p.event);
    }
  }

  lemma SteadyTake(k: KState, i: Slot, sig: Signal)
    requires Inv(k, {}) && i != 0 && Parked(k.table[i]) && sig in k.table[i].signals
    requires k.table[i].state == Stopped ==> sig == SIGKILL || sig == SIGCONT
    ensures Steady(k, TakeSignal(k, i, sig))
  {
    hide Inv, Steady, Handle, Calm, Toggle, SleepAgain, Sound, Exclusive;
    var k1 := Handle(k, i, sig);
    SteadyHandle(k, i, sig);
    if !k1.faulted {
      SteadyInv(k, k1);
      SlotSound(k1, i, {});
      ToggleExclusive(k1.table[i].signals, sig);
      var q := k1.table[i].(signals := Toggle(k1.table[i].signals, sig));
      CalmPut(k1, i, q, {});
      CalmInv(k1, Put(k1, i, q), {});
      CalmSteady(k1, Put(k1, i, q));
      var k2 := Put(k1, i, q);
      SteadyThen(k, k1, k2);
      var u := k.table[i].handlers[sig].UserHandler?;
      SoundSleepAgain(k2, i, u);
      SoundSteady(k2, SleepAgain(k2, i, u));
      SteadyThen(k, k2, SleepAgain(k2, i, u));
    }
  }

  /** A stopped process takes SIGKILL and SIGCONT and nothing else. */
  lemma {:induction false} StoppedTakes(k: KState, i: Slot, n: nat, s: nat)
    requires n <= s <= TOTAL_SIGNALS && k.table[i].state == Stopped && !k.faulted
    requires SIGKILL in k.table[i].signals ==> SIGKILL < n || s <= SIGKILL
    requires SIGCONT in k.table[i].signals ==> SIGCONT < n || s <= SIGCONT
    ensures CheckFrom(k, i, n) == CheckFrom(k, i, s)
    decreases s - n
  {
    hide TakeSignal;
    if n < s {
      StoppedTakes(k, i, n + 1, s);
    }
  }

  lemma TakesNext(k: KState, i: Slot, n: Signal)
    requires !k.faulted && Alive(k.table[i]) && n in k.table[i].signals && (n == SIGKILL || n == SIGCONT)
    ensures CheckFrom(k, i, n) == CheckFrom(TakeSignal(k, i, n), i, n + 1)
  {
    hide TakeSignal;
  }

  lemma DeadStays(k: KState, i: Slot, n: nat)
    requires n <= TOTAL_SIGNALS && k.table[i].state == Killed
    ensures CheckFrom(k, i, n) == k
  {
  }

  /** check_pending_signals keeps the invariant for every process that is not running. */
  lemma {:induction false} SteadyCheckFrom(k: KState, i: Slot, n: nat)
    requires n <= TOTAL_SIGNALS && Inv(k, {}) && i != 0
    requires k.table[i].state != Running && k.table[i].state != Init
    ensures Steady(k, CheckFrom(k, i, n))
    decreases TOTAL_SIGNALS - n
  {
    hide Inv, Steady, TakeSignal;
    if n == TOTAL_SIGNALS || k.faulted || !Alive(k.table[i]) {
      SteadySelf(k);
    } else if n !in k.table[i].signals || (k.table[i].state == Stopped && n != SIGKILL && n != SIGCONT) {
      SteadyCheckFrom(k, i, n + 1);
    } else {
      var k1 := TakeSignal(k, i, n);
      SteadyTake(k, i, n);
      SteadyInv(k, k1);
      SteadyEntry(k, k1, i);
      SteadyCheckFrom(k1, i, n + 1);
      SteadyThen(k, k1, CheckFrom(k1, i, n + 1));
    }
  }
}
