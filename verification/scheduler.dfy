/** schedule(): its two signal-checking loops, why they terminate, and what it keeps. */
module Scheduler {
  import opened Sequences
  import opened ProcessModel
  import opened ProcessInvariant
  import opened WakeupProofs
  import opened SignalProofs
  import opened HandlerProofs
  import opened PendingProofs

  /** Nobody runs: every caller of schedule() has taken the current process off the CPU. */
  ghost predicate Parking(k: KState) {
    forall i: Slot :: k.table[i].state != Running
  }

  // ----- the loop over the suspended list

  /** The pending signals of each suspended job, in the order of the list at the start. */
  function CheckSuspended(k: KState, jobs: seq<Slot>): KState
    decreases |jobs|
  {
    if jobs == [] || k.faulted then k
    else CheckSuspended(CheckPending(k, jobs[0]), jobs[1..])
  }

  lemma {:induction false} SteadyCheckSuspended(k: KState, jobs: seq<Slot>)
    requires Inv(k, {}) && forall j :: j in jobs ==> j != 0 && k.table[j].state != Running && k.table[j].state != Init
    ensures Steady(k, CheckSuspended(k, jobs))
    decreases |jobs|
  {
    hide Inv, Steady, CheckFrom;
    if jobs == [] || k.faulted {
      SteadySelf(k);
    } else {
      assert jobs[0] in jobs;
      var k1 := CheckPending(k, jobs[0]);
      SteadyCheckFrom(k, jobs[0], 0);
      SteadyInv(k, k1);
      forall j | j in jobs[1..]
        ensures j != 0 && k1.table[j].state != Running && k1.table[j].state != Init
      {
        assert j in jobs;
        SteadyEntry(k, k1, j);
      }
      SteadyCheckSuspended(k1, jobs[1..]);
      SteadyThen(k, k1, CheckSuspended(k1, jobs[1..]));
    }
  }

  lemma SuspendedJobs(k: KState)
    requires Inv(k, {})
    ensures forall j :: j in k.suspended ==> j != 0 && k.table[j].state == Stopped
  {
    hide NoDup, Data, InOrder;
  }

  // ----- why the loop over the ready queue terminates

  /** The processes that are neither stopped nor dead. */
  ghost function Live(k: KState): set<Slot> {
    set i: Slot | 0 <= i < TABLE_SIZE && !Down(k.table[i].state)
  }

  /** Where the candidate `c`, once at the head of the ready queue of `k0`, is now: still at
      the head, asleep with the queue shorter, or stopped or dead. */
  ghost predicate Progress(k0: KState, k: KState, c: Slot) {
    && NoRevival(k0, k)
    && (|| k.faulted
        || (k.table[c].state == Ready && k.ready != [] && k.ready[0] == c && |k.ready| <= |k0.ready|)
        || (k.table[c].state == Asleep && |k.ready| < |k0.ready|)
        || Down(k.table[c].state))
  }

  lemma ProgressHandle(k0: KState, k: KState, c: Slot, sig: Signal)
    requires Inv(k, {}) && Progress(k0, k, c) && c != 0
    requires !k.faulted && (k.table[c].state == Ready || k.table[c].state == Asleep)
    ensures Progress(k0, Handle(k, c, sig), c)
  {
    hide Inv, Terminate, KillHandler, StopHandler, Sound, Ends, NoRevival, DefaultHandlers;
    match k.table[c].handlers[sig]
    case NoHandler =>
    case KernelHandler => ProgressDefault(k0, k, c, sig);
    case UserHandler(_) =>
      assert ContinueHandler(k, c) == k;
      var k' := Handle(k, c, sig);
      assert NoRevival(k0, k') by {
        SlotSound(k, c, {});
        CalmPut(k, c, k'.table[c], {});
        CalmSound(k, k', {});
        SoundParts(k, k', {});
        NoRevivalTransitive(k0, k, k');
      }
  }

  lemma SoundParts(k: KState, k': KState, limbo: set<Slot>)
    requires Sound(k, k', limbo)
    ensures NoRevival(k, k') && Follows(k, k') && Inv(k', limbo)
  {
    hide NoRevival, Follows, Inv;
  }

  lemma ProgressDefault(k0: KState, k: KState, c: Slot, sig: Signal)
    requires Inv(k, {}) && Progress(k0, k, c) && c != 0
    requires !k.faulted && (k.table[c].state == Ready || k.table[c].state == Asleep)
    ensures Progress(k0, DefaultHandler(k, c, sig), c)
  {
    hide Inv, Terminate, KillHandler, StopHandler, Sound, Ends, NoRevival;
    var k' := DefaultHandler(k, c, sig);
    PidPositive(k, c);
    if sig == SIGHUP || sig == SIGINT || sig == SIGABRT || sig == SIGTERM {
      EndsTerminate(k, c, sig);
      EndsSound(k, k', {});
    } else if sig == SIGKILL {
      if k.table[c].pid > 1 {
        EndsKillHandler(k, c);
        EndsSound(k, k', {});
      } else {
        KillSpares(k, c);
        SoundSelf(k, {});
      }
    } else if sig == SIGSTOP || sig == SIGTSTP {
      SoundStop(k, c);
    } else {
      assert k' == k;
      SoundSelf(k, {});
    }
    SoundParts(k, k', {});
    NoRevivalTransitive(k0, k, k');
  }

  lemma KillSpares(k: KState, c: Slot)
    requires k.table[c].pid == 0 || k.table[c].pid == 1
    ensures KillHandler(k, c) == k
  {
  }

  lemma ProgressTake(k0: KState, k: KState, c: Slot, sig: Signal)
    requires Inv(k, {}) && Progress(k0, k, c) && c != 0 && sig in k.table[c].signals
    requires !k.faulted && (k.table[c].state == Ready || k.table[c].state == Asleep)
    ensures Progress(k0, TakeSignal(k, c, sig), c)
  {
    hide Inv, Handle, Progress, Toggle, SleepAgain, Steady, Calm, Sound;
    var k1 := Handle(k, c, sig);
    ProgressHandle(k0, k, c, sig);
    if !k1.faulted {
      SteadyHandle(k, c, sig);
      SteadyInv(k, k1);
      SlotSound(k1, c, {});
      ToggleExclusive(k1.table[c].signals, sig);
      var q := k1.table[c].(signals := Toggle(k1.table[c].signals, sig));
      var k2 := Put(k1, c, q);
      CalmPut(k1, c, q, {});
      CalmInv(k1, k2, {});
      ProgressPut(k0, k1, c, q);
      ProgressSleep(k0, k2, c, k.table[c].handlers[sig].UserHandler?);
    }
  }

  lemma ProgressPut(k0: KState, k: KState, c: Slot, q: Process)
    requires Progress(k0, k, c) && q.state == k.table[c].state
    ensures Progress(k0, Put(k, c, q), c)
  {
  }

  lemma ProgressSleep(k0: KState, k: KState, c: Slot, userHandled: bool)
    requires Progress(k0, k, c) && Inv(k, {})
    ensures Progress(k0, SleepAgain(k, c, userHandled), c)
  {
    hide Inv, NoRevival, Sound;
    SoundSleepAgain(k, c, userHandled);
    var k' := SleepAgain(k, c, userHandled);
    SoundParts(k, k', {});
    NoRevivalTransitive(k0, k, k');
    if c in k.ready {
      ReadySlot(k, c);
    }
  }

  lemma {:induction false} ProgressCheck(k0: KState, k: KState, c: Slot, n: nat)
    requires n <= TOTAL_SIGNALS && Inv(k, {}) && c != 0 && Progress(k0, k, c)
    requires k.table[c].state != Running && k.table[c].state != Init
    requires k.table[c].state == Stopped ==> n > SIGCONT
    ensures Progress(k0, CheckFrom(k, c, n), c)
    decreases TOTAL_SIGNALS - n
  {
    hide Inv, Progress, TakeSignal, Steady;
    if n == TOTAL_SIGNALS || k.faulted || !Alive(k.table[c]) {
    } else if n !in k.table[c].signals || k.table[c].state == Stopped {
      ProgressCheck(k0, k, c, n + 1);
    } else {
      var k1 := TakeSignal(k, c, n);
      ProgressTake(k0, k, c, n);
      SteadyTake(k, c, n);
      SteadyInv(k, k1);
      SteadyEntry(k, k1, c);
      StopsLate(k, c, n);
      ProgressCheck(k0, k1, c, n + 1);
    }
  }

  /** A process that was not stopped is stopped only by a stop signal. */
  lemma StopsLate(k: KState, c: Slot, sig: Signal)
    requires Inv(k, {}) && c != 0 && (k.table[c].state == Ready || k.table[c].state == Asleep)
    ensures TakeSignal(k, c, sig).table[c].state == Stopped ==> sig == SIGSTOP || sig == SIGTSTP
  {
    hide Inv, Handle, Toggle, Without;
    StopsByHandler(k, c, sig);
  }

  lemma StopsByHandler(k: KState, c: Slot, sig: Signal)
    requires Inv(k, {}) && c != 0 && (k.table[c].state == Ready || k.table[c].state == Asleep)
    ensures Handle(k, c, sig).table[c].state == Stopped ==> sig == SIGSTOP || sig == SIGTSTP
  {
    hide Inv, Terminate, KillHandler, StopHandler, Ends, DefaultHandlers;
    if sig == SIGHUP || sig == SIGINT || sig == SIGABRT || sig == SIGTERM {
      EndsTerminate(k, c, sig);
    } else if sig == SIGKILL {
      PidPositive(k, c);
      EndsKillHandler(k, c);
      if k.table[c].pid == 1 {
        KillSpares(k, c);
      }
    } else if sig == SIGCONT {
      assert ContinueHandler(k, c) == k;
    }
  }

  lemma LiveShrinks(k: KState, k': KState, c: Slot)
    requires NoRevival(k, k')
    ensures |Live(k')| <= |Live(k)|
    ensures !Down(k.table[c].state) && Down(k'.table[c].state) ==> |Live(k')| < |Live(k)|
  {
    assert Live(k') <= Live(k);
    SubsetSize(Live(k'), Live(k));
    if !Down(k.table[c].state) && Down(k'.table[c].state) {
      assert c in Live(k) && c !in Live(k');
      SubsetSize(Live(k'), Live(k) - {c});
    }
  }

  lemma {:induction false} SubsetSize(a: set<Slot>, b: set<Slot>)
    requires a <= b
    ensures |a| <= |b|
  {
    if a != {} {
      var x :| x in a;
      SubsetSize(a - {x}, b - {x});
    }
  }

  /** Checking the head of the ready queue keeps it at the head, or strictly decreases the
      pair (processes neither stopped nor dead, length of the ready queue). */
  lemma HeadProgress(k: KState)
    requires Inv(k, {}) && k.ready != [] && !k.faulted
    ensures var k' := CheckPending(k, k.ready[0]);
      && Steady(k, k') && NoRevival(k, k')
      && (|| k'.faulted
          || (k'.ready != [] && k'.ready[0] == k.ready[0])
          || |Live(k')| < |Live(k)|
          || (|Live(k')| == |Live(k)| && |k'.ready| < |k.ready|))
  {
    var c := k.ready[0];
    ReadySlot(k, c);
    SoundSelf(k, {});
    SoundParts(k, k, {});
    var k' := CheckPending(k, c);
    hide Inv, NoRevival, CheckFrom, Steady;
    ProgressCheck(k, k, c, 0);
    SteadyCheckFrom(k, c, 0);
    LiveShrinks(k, k', c);
  }

  // ----- the loop over the ready queue

  /** Checks the process at the head until the one that is checked is still there. */
  function CheckReady(k: KState): KState
    requires Inv(k, {})
    decreases |Live(k)|, |k.ready|
  {
    if k.ready == [] || k.faulted then k
    else
      var k1 := CheckPending(k, k.ready[0]);
      HeadProgress(k);
      if k1.faulted || (k1.ready != [] && k1.ready[0] == k.ready[0]) then k1 else CheckReady(k1)
  }

  lemma {:induction false} SteadyCheckReady(k: KState)
    requires Inv(k, {})
    ensures Steady(k, CheckReady(k))
    decreases |Live(k)|, |k.ready|
  {
    hide Inv, Steady, CheckFrom, NoRevival, Live;
    if k.ready == [] || k.faulted {
      SteadySelf(k);
    } else {
      var k1 := CheckPending(k, k.ready[0]);
      HeadProgress(k);
      SteadyInv(k, k1);
      if !(k1.faulted || (k1.ready != [] && k1.ready[0] == k.ready[0])) {
        SteadyCheckReady(k1);
        SteadyThen(k, k1, CheckReady(k1));
      }
    }
  }

  // ----- the choice

  /** The head of the ready queue runs, or the idle process if the queue is empty. */
  function Dispatch(k: KState): KState {
    var next: Slot := if k.ready == [] then 0 else k.ready[0];
    KState(
      k.table[next := k.table[next].(state := Running)],
      if k.ready == [] then [] else k.ready[1..],
      k.waiting, k.suspended, k.zombies,
      next,
      if !k.table[next].daemon && k.foreground == NIL then next else k.foreground,
      k.nextPid,
      k.shutdown || (k.ready == [] && k.waiting == [] && SIGTERM in k.table[0].signals),
      k.faulted, k.arrivals, k.schedules + 1, k.reaped)
  }

  function Schedule(k: KState): KState
    requires Inv(k, {})
  {
    var k1 := CheckSuspended(k, k.suspended);
    SuspendedJobs(k);
    SteadyCheckSuspended(k, k.suspended);
    SteadyInv(k, k1);
    if k1.faulted then k1
    else
      var k2 := CheckReady(k1);
      if k2.faulted then k2 else Dispatch(k2)
  }
}
