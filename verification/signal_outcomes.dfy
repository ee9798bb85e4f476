/** What becomes of a process that is checked for signals: ended, stopped, continued, or left alone;
    and the statuses in which this is told. */
module SignalOutcomes {
  import opened Sequences
  import opened ProcessModel
  import opened ProcessInvariant
  import opened WakeupProofs
  import opened SignalProofs
  import opened HandlerProofs
  import opened PendingProofs
  import opened ExitEffects
  import opened KernelSteps
  import opened Family
  import opened StopEffects
  import opened KillEffects
  import opened LostWakeups

  // ----- ended or stopped

  /** The kernel's handler ends the process. */
  predicate Ending(p: Process, s: Signal) {
    && p.handlers[s] == KernelHandler
    && (s == SIGHUP || s == SIGINT || s == SIGABRT || s == SIGTERM || (s == SIGKILL && p.pid > 1))
  }

  /** The kernel's handler stops the process. */
  predicate Halting(p: Process, s: Signal) {
    p.handlers[s] == KernelHandler && p.pid > 1 && (s == SIGSTOP || s == SIGTSTP)
  }

  /** The first pending signal from `n` on that ends or stops the process. */
  predicate FirstDeadly(p: Process, n: nat, s: Signal) {
    && s in p.signals && n <= s && (Ending(p, s) || Halting(p, s))
    && (forall t :: t in p.signals && n <= t < s ==> !Ending(p, t) && !Halting(p, t))
  }

  lemma DeadlyEither(p: Process, s: Signal)
    ensures Deadly(p, s) <==> Ending(p, s) || Halting(p, s)
  {
  }

  /** What a deadly signal leaves: a dead process with the signal in its status, or a stopped one. */
  predicate Fallen(p: Process, q: Process, s: Signal) {
    && q.pid == p.pid
    && (if Ending(p, s) then q.state == Killed && q.status == 0x100 | (s as bv32)
        else q.state == Stopped && q.status == StoppedStatus(p.status))
  }

  lemma Falls(k: KState, i: Slot, s: Signal)
    requires Inv(k, {}) && Kin(k) && i != 0 && Active(k.table[i]) && s in k.table[i].signals && !k.faulted
    requires Ending(k.table[i], s) || Halting(k.table[i], s)
    ensures var k' := TakeSignal(k, i, s);
      Fallen(k.table[i], k'.table[i], s) && (Halting(k.table[i], s) ==> s > SIGCONT)
  {
    hide Inv, Kin, Terminate, KillHandler, StopHandler, Ends, Sound, Toggle, GetProcess, StoppedStatus;
    var k1 := Handle(k, i, s);
    DeadlyEither(k.table[i], s);
    TakesDeadly(k, i, s);
    if s == SIGHUP || s == SIGINT || s == SIGABRT || s == SIGTERM {
      EndsTerminate(k, i, s);
      EndsSound(k, k1, {});
      TerminateStatus(k, i, s);
    } else if s == SIGKILL {
      NotOwnParent(k, i);
      KillExact(k, i);
      KillStatus();
    } else {
      NotOwnParent(k, i);
      StopExact(k, i);
    }
    KeepsStatus(k1, i, s, k.table[i].handlers[s].UserHandler?);
  }

  lemma KillStatus()
    ensures 0x100 | SignalBits(SIGKILL) == 0x100 | (SIGKILL as bv32)
  {
  }

  lemma KeepsStatus(k: KState, i: Slot, s: Signal, u: bool)
    ensures var k' := SleepAgain(Put(k, i, k.table[i].(signals := Toggle(k.table[i].signals, s))), i, u);
      k'.table[i].status == k.table[i].status && k'.table[i].pid == k.table[i].pid
  {
    hide Without, Toggle;
  }

  lemma TerminateStatus(k: KState, i: Slot, s: Signal)
    requires Inv(k, {}) && i != 0 && (k.table[i].state == Ready || k.table[i].state == Asleep)
    ensures var k' := Terminate(k, i, s);
      k'.table[i].status == 0x100 | (s as bv32) && k'.table[i].pid == k.table[i].pid
  {
    hide Inv, Ends, LeaveActive, Exit, StoppedJobs, ParentOf;
    var k1 := LeaveActive(k, i);
    EndsLeaveActive(k, i);
    EndsInv(k, k1, {i});
    ExitExact(k1, i, 0x100 | (s as bv32));
  }

  lemma FirstNext(p: Process, n: Signal, s: Signal)
    requires FirstDeadly(p, n, s) && s != n
    ensures FirstDeadly(p, n + 1, s)
    ensures n in p.signals ==> !Deadly(p, n)
    ensures n in p.signals ==> forall st :: FirstDeadly(Dropped(p, n).(state := st), n + 1, s)
  {
    hide DefaultHandlers;
    if n in p.signals {
      forall st
        ensures FirstDeadly(Dropped(p, n).(state := st), n + 1, s)
      {
        var q := Dropped(p, n).(state := st);
        assert forall t: Signal :: t != n ==> q.handlers[t] == p.handlers[t];
        assert forall t: Signal :: t != n ==> (Ending(q, t) <==> Ending(p, t)) && (Halting(q, t) <==> Halting(p, t));
      }
    }
  }

  lemma {:induction false} FallsInTheEnd(k: KState, i: Slot, n: nat, s: Signal)
    requires n <= TOTAL_SIGNALS && Inv(k, {}) && Kin(k) && i != 0 && Active(k.table[i]) && !k.faulted
    requires FirstDeadly(k.table[i], n, s)
    ensures Fallen(k.table[i], CheckFrom(k, i, n).table[i], s)
    decreases TOTAL_SIGNALS - n
  {
    hide Inv, Kin, TakeSignal, SleepAgain, Steady, Follows, StoppedStatus, FirstDeadly;
    FirstBounds(k.table[i], n, s);
    var p := k.table[i];
    if n == s {
      var k1 := TakeSignal(k, i, n);
      Falls(k, i, n);
      if k1.table[i].state == Killed {
        DeadStays(k1, i, n + 1);
      } else {
        StoppedSkips(k1, i, n + 1);
      }
    } else {
      FirstNext(p, n, s);
      if n !in p.signals {
        FallsInTheEnd(k, i, n + 1, s);
      } else {
        var k1 := TakeSignal(k, i, n);
        TakesHarmless(k, i, n);
        SteadyTake(k, i, n);
        SteadyInv(k, k1);
        KinSteady(k, k1);
        DropSleeps(k, i, n);
        FallsInTheEnd(k1, i, n + 1, s);
      }
    }
  }

  lemma FirstBounds(p: Process, n: nat, s: Signal)
    requires FirstDeadly(p, n, s)
    ensures n <= s && s in p.signals && (Ending(p, s) || Halting(p, s))
  {
  }

  lemma KinSteady(k: KState, k': KState)
    requires Inv(k, {}) && Kin(k) && Steady(k, k')
    ensures Kin(k')
  {
    hide Inv, Kin, Follows;
    KinFollows(k, k', {});
  }

  /** A process that is ready or asleep and is checked: the first pending signal that the kernel ends or
      stops it for decides, whatever else is pending, and is told in the status. If there is none
      it lives on, ready or asleep, with no signal pending. */
  lemma CheckOutcome(k: KState, i: Slot)
    requires Inv(k, {}) && Kin(k) && i != 0 && Active(k.table[i]) && !k.faulted
    ensures var p, q := k.table[i], CheckPending(k, i).table[i];
      && (forall s :: FirstDeadly(p, 0, s) ==> Fallen(p, q, s))
      && ((forall s :: s in p.signals ==> !Ending(p, s) && !Halting(p, s)) ==>
            Active(q) && q.signals == {} && q.status == p.status && q.event == p.event
            && (q.state != p.state ==> p.event != NONE && q.state == Asleep))
  {
    hide Inv, Kin, CheckFrom, Fallen, FirstDeadly;
    forall s | FirstDeadly(k.table[i], 0, s)
      ensures Fallen(k.table[i], CheckPending(k, i).table[i], s)
    {
      FallsInTheEnd(k, i, 0, s);
    }
    if forall s :: s in k.table[i].signals ==> !Ending(k.table[i], s) && !Halting(k.table[i], s) {
      forall s | s in k.table[i].signals
        ensures !Deadly(k.table[i], s)
      {
        DeadlyEither(k.table[i], s);
      }
      HarmlessCheck(k, i, 0);
    }
  }

  // ----- continued

  lemma ContinueSignals(k: KState, i: Slot)
    ensures ContinueHandler(k, i).table[i].signals <= k.table[i].signals + {SIGCHLD}
  {
    hide Resume, PauseForeground, FinishContinue;
    var k1 := Resume(k, i);
    PendingResume(k, i);
    FinishSignals(k1, i);
    var k2 := if k1.foreground != NIL then PauseForeground(k1) else k1;
    PendingPause(k1, i);
    FinishSignals(k2.(foreground := i), i);
  }

  lemma FinishSignals(k: KState, i: Slot)
    ensures FinishContinue(k, i).table[i].signals <= k.table[i].signals + {SIGCHLD}
  {
    hide GetProcess, ContinuedStatus;
  }

  /** What is done for SIGCONT before its bit is cleared. */
  lemma HandlesContinue(k: KState, i: Slot)
    requires !ContinueHandler(k, i).faulted
    ensures var k1, c := Handle(k, i, SIGCONT), ContinueHandler(k, i);
      if k.table[i].handlers[SIGCONT] == NoHandler then k1 == k
      else k1 == c.(table := k1.table) && k1.table[i] == c.table[i].(handlers := k1.table[i].handlers)
  {
    hide ContinueHandler, DefaultHandlers;
  }

  lemma ClearsContinue(k: KState, i: Slot)
    requires !Handle(k, i, SIGCONT).faulted
    ensures var k1, k' := Handle(k, i, SIGCONT), TakeSignal(k, i, SIGCONT); var p, q := k1.table[i], k'.table[i];
      && !k'.faulted && (q.state == p.state || (i in k1.ready && q.state == Asleep))
      && (SIGCONT in p.signals ==> q.signals == p.signals - {SIGCONT})
  {
    hide Handle, Without;
  }

  /** SIGCONT is taken: the process leaves its stop, unless the signal is ignored. */
  lemma TakesContinue(k: KState, i: Slot)
    requires Inv(k, {}) && i != 0 && k.table[i].state == Stopped && k.table[i].pid > 1 && !k.faulted
    requires SIGCONT in k.table[i].signals && CanTakeOver(k, i)
    ensures var q, k' := TakeSignal(k, i, SIGCONT).table[i], TakeSignal(k, i, SIGCONT);
      && Inv(k', {}) && !k'.faulted
      && (if k.table[i].handlers[SIGCONT] == NoHandler then q.state == Stopped else Active(q))
      && SIGSTOP !in q.signals && SIGTSTP !in q.signals
  {
    hide Inv, ContinueHandler, CanTakeOver, Steady, DefaultHandlers, TakeSignal, Handle;
    SteadyTake(k, i, SIGCONT);
    SteadyInv(k, TakeSignal(k, i, SIGCONT));
    ExclusiveAt(k, i);
    ContinueExact(k, i);
    ContinueSignals(k, i);
    PendingContinue(k, i);
    HandlesContinue(k, i);
    ClearsContinue(k, i);
    if k.table[i].handlers[SIGCONT] == NoHandler {
      OffReady(k, i);
    }
  }

  lemma ExclusiveAt(k: KState, i: Slot)
    requires Inv(k, {})
    ensures Exclusive(k.table[i].signals)
  {
    hide Queues, Jobs, InOrder, Reaped, Pids, Running1;
  }

  lemma LateIsHarmless(p: Process)
    requires SIGSTOP !in p.signals && SIGTSTP !in p.signals
    ensures !Fatal(p, SIGCONT + 1)
  {
  }

  /** A stopped process that is checked without SIGKILL pending is continued if and only if SIGCONT is
      pending and not ignored, also when user code catches it; without it nothing changes, so that
      every signal stays pending. */
  lemma StoppedOutcome(k: KState, i: Slot)
    requires Inv(k, {}) && i != 0 && k.table[i].state == Stopped && k.table[i].pid > 1 && !k.faulted
    requires SIGKILL !in k.table[i].signals && CanTakeOver(k, i)
    ensures var p, q := k.table[i], CheckPending(k, i).table[i];
      && (if SIGCONT in p.signals && p.handlers[SIGCONT] != NoHandler then Active(q) else q.state == Stopped)
      && (SIGCONT !in p.signals ==> CheckPending(k, i) == k)
  {
    hide Inv, TakeSignal, CheckFrom, Fatal, CanTakeOver;
    if SIGCONT in k.table[i].signals {
      StoppedTakes(k, i, 0, SIGCONT);
      TakesNext(k, i, SIGCONT);
      var k1 := TakeSignal(k, i, SIGCONT);
      TakesContinue(k, i);
      if k.table[i].handlers[SIGCONT] == NoHandler {
        StoppedSkips(k1, i, SIGCONT + 1);
      } else {
        LateIsHarmless(k1.table[i]);
        HarmlessCheck(k1, i, SIGCONT + 1);
      }
    } else {
      StoppedTakes(k, i, 0, TOTAL_SIGNALS);
      StoppedSkips(k, i, TOTAL_SIGNALS);
    }
  }

  // ----- statuses, as wait's caller reads them

  /** WTERMSIG, WIFSTOPPED, WIFEXITED, WIFSIGNALED and WEXITSTATUS of the C library. */
  function TermSignal(status: bv32): bv32 {
    status & 0x7f
  }

  predicate IsStopped(status: bv32) {
    status & 0xff == 0x7f
  }

  predicate IsExited(status: bv32) {
    TermSignal(status) == 0
  }

  predicate IsSignalled(status: bv32) {
    TermSignal(status) != 0 && TermSignal(status) != 0x7f
  }

  function ExitCode(status: bv32): bv32 {
    (status >> 8) & 0xff
  }

  /** The status of a process that has ended reads back as how it ended: exit with the low byte of its
      argument, or the number of the signal. */
  lemma EndsReadBack(code: bv32, s: Signal)
    requires 0 < s
    ensures var e := ExitStatus(code);
      IsExited(e) && !IsSignalled(e) && !IsStopped(e) && ExitCode(e) == code & 0xff
    ensures s < 31 ==> var t := 0x100 | (s as bv32);
      IsSignalled(t) && !IsExited(t) && !IsStopped(t) && TermSignal(t) == s as bv32
  {
  }

  /** So do a stop and a continuation, from every status before it: they change the low seven bits only. */
  lemma StopsReadBack(status: bv32)
    ensures TermSignal(StoppedStatus(status)) == 0x7f && StoppedStatus(status) & !0x7f == status & !0x7f
    ensures IsStopped(StoppedStatus(status)) <==> status & 0x80 == 0
  {
    var t := status | 0x7f;
    assert t & 0x7f == 0x7f && t & !0x7f == status & !0x7f;
    assert t & 0xff == 0x7f <==> status & 0x80 == 0;
  }

  lemma ContinuesReadBack(status: bv32)
    ensures TermSignal(ContinuedStatus(status)) == 18 && ContinuedStatus(status) & !0x7f == status & !0x7f
    ensures !IsStopped(ContinuedStatus(status))
  {
    ContinueBits();
    assert ContinuedStatus(status) == (status & !0x7f) | 18;
    hide ContinuedStatus, SignalBits;
    LowBits(status);
  }

  lemma ContinueBits()
    ensures SignalBits(SIGCONT) == 18
  {
  }

  lemma LowBits(status: bv32)
    ensures var t := (status & !0x7f) | 18;
      t & 0x7f == 18 && t & !0x7f == status & !0x7f && t & 0xff != 0x7f
  {
  }
}
