/** When a process that a signal has pulled out of its sleep goes back to sleep on the same event,
    whatever has happened to what it was waiting for. */
module LostWakeups {
  import opened Sequences
  import opened ProcessModel
  import opened ProcessInvariant
  import opened WakeupProofs
  import opened SignalProofs
  import opened HandlerProofs
  import opened PendingProofs
  import opened ExitEffects

  /** The kernel's handler ends or stops the process. */
  predicate Deadly(p: Process, s: Signal) {
    && p.handlers[s] == KernelHandler
    && (|| s == SIGHUP || s == SIGINT || s == SIGABRT || s == SIGTERM
        || (p.pid > 1 && (s == SIGKILL || s == SIGSTOP || s == SIGTSTP)))
  }

  predicate Fatal(p: Process, n: nat) {
    exists s :: s in p.signals && n <= s && Deadly(p, s)
  }

  /** A pending signal that no user code handles. */
  predicate Unheard(p: Process, n: nat) {
    exists s :: s in p.signals && n <= s && !p.handlers[s].UserHandler?
  }

  /** A handled signal that does nothing but disappear; a user handler is reset. */
  function Dropped(p: Process, s: Signal): Process {
    p.(signals := p.signals - {s},
       handlers := if p.handlers[s].UserHandler? then p.handlers[s := DefaultHandlers()[s]] else p.handlers)
  }

  /** After this signal the process does not go back to sleep: user code runs, or it did not sleep. */
  predicate StaysUp(p: Process, s: Signal) {
    p.handlers[s].UserHandler? || p.event == NONE
  }

  predicate Active(p: Process) {
    p.state == Ready || p.state == Asleep
  }

  lemma TakesHarmless(k: KState, i: Slot, s: Signal)
    requires Inv(k, {}) && i != 0 && Active(k.table[i]) && s in k.table[i].signals && !Deadly(k.table[i], s)
    requires !k.faulted
    ensures TakeSignal(k, i, s) ==
      SleepAgain(Put(k, i, Dropped(k.table[i], s)), i, k.table[i].handlers[s].UserHandler?)
  {
    hide Inv, DefaultHandlers, Terminate, SleepAgain;
    PidPositive(k, i);
    var p := k.table[i];
    assert ContinueHandler(k, i) == k;
    assert p.pid <= 1 ==> KillHandler(k, i) == k && StopHandler(k, i) == k;
    assert Toggle(p.signals, s) == p.signals - {s};
    if p.handlers[s].UserHandler? {
      var q := p.(handlers := p.handlers[s := DefaultHandlers()[s]]);
      assert k.table[i := q][i := q.(signals := p.signals - {s})] == k.table[i := Dropped(p, s)];
    } else {
      assert Handle(k, i, s) == k;
    }
  }

  /** Only the entry of `i` and its place change: its signals from `n` on are gone, its handlers may
      be reset, and if it `sleeps` it is on the wait list. */
  predicate Settles(k: KState, k': KState, i: Slot, n: nat, sleeps: bool) {
    var p, q := k.table[i], k'.table[i];
    && k' == k.(table := k'.table, ready := k'.ready, waiting := k'.waiting)
    && k'.table == k.table[i := q]
    && q == p.(state := if sleeps then Asleep else p.state, signals := q.signals, handlers := q.handlers)
    && q.signals == (set s | s in p.signals && s < n)
    && (if sleeps && p.state == Ready then k'.ready == Without(k.ready, i) && k'.waiting == k.waiting + [i]
        else k'.ready == k.ready && k'.waiting == k.waiting)
  }

  lemma SettlesSelf(k: KState, i: Slot)
    ensures Settles(k, k, i, TOTAL_SIGNALS, false)
  {
    assert k.table[i].signals == set s | s in k.table[i].signals && s < TOTAL_SIGNALS;
  }

  lemma SettlesSkip(k: KState, k': KState, i: Slot, n: Signal, sleeps: bool)
    requires n !in k.table[i].signals && Settles(k, k', i, n + 1, sleeps)
    ensures Settles(k, k', i, n, sleeps)
  {
    assert (set s | s in k.table[i].signals && s < n) == set s | s in k.table[i].signals && s < n + 1;
  }

  lemma SettlesTake(k: KState, k': KState, i: Slot, n: Signal, sleeps: bool)
    requires Inv(k, {}) && i != 0 && Active(k.table[i]) && n in k.table[i].signals
    requires var u := k.table[i].handlers[n].UserHandler?;
      var k1 := SleepAgain(Put(k, i, Dropped(k.table[i], n)), i, u);
      Settles(k1, k', i, n + 1, sleeps)
    ensures Settles(k, k', i, n, sleeps || !StaysUp(k.table[i], n))
  {
    hide SleepAgain, Inv, Dropped, Settles;
    DropSleeps(k, i, n);
    var u := k.table[i].handlers[n].UserHandler?;
    SettlesAfter(k, SleepAgain(Put(k, i, Dropped(k.table[i], n)), i, u), k', i, n, sleeps);
  }

  lemma SettlesAfter(k: KState, k1: KState, k': KState, i: Slot, n: Signal, sleeps: bool)
    requires Active(k.table[i]) && n in k.table[i].signals && Settles(k1, k', i, n + 1, sleeps)
    requires var u := StaysUp(k.table[i], n); var p := k.table[i];
      && k1.table[i] == Dropped(p, n).(state := if u then p.state else Asleep)
      && k1 == (if !u && p.state == Ready then
                  k.(table := k.table[i := k1.table[i]], ready := Without(k.ready, i), waiting := k.waiting + [i])
                else k.(table := k.table[i := k1.table[i]]))
    ensures Settles(k, k', i, n, sleeps || !StaysUp(k.table[i], n))
  {
    hide Without, DefaultHandlers;
    var p := k.table[i];
    assert (set s | s in p.signals && s < n) == set s | s in p.signals - {n} && s < n + 1;
    assert k1.table[i := k'.table[i]] == k.table[i := k'.table[i]];
  }

  /** Nothing deadly pending: the signals disappear. A sleeper sleeps on; a process on the ready
      queue with an event goes back to sleep on it if one of the signals is unheard. */
  lemma {:induction false} HarmlessCheck(k: KState, i: Slot, n: nat)
    requires n <= TOTAL_SIGNALS && Inv(k, {}) && i != 0 && Active(k.table[i]) && !k.faulted
    requires !Fatal(k.table[i], n)
    ensures Settles(k, CheckFrom(k, i, n), i, n, k.table[i].event != NONE && Unheard(k.table[i], n))
    decreases TOTAL_SIGNALS - n
  {
    hide Inv, TakeSignal, SleepAgain, Steady, Fatal, Unheard, Deadly, Settles;
    var p := k.table[i];
    if n == TOTAL_SIGNALS {
      NoneLeft(p);
      SettlesSelf(k, i);
    } else if n !in p.signals {
      SkipPending(p, n);
      HarmlessCheck(k, i, n + 1);
      SettlesSkip(k, CheckFrom(k, i, n), i, n, p.event != NONE && Unheard(p, n));
    } else {
      var k1 := TakeSignal(k, i, n);
      TakePending(p, n);
      TakesHarmless(k, i, n);
      SteadyTake(k, i, n);
      SteadyInv(k, k1);
      DropSleeps(k, i, n);
      HarmlessCheck(k1, i, n + 1);
      SettlesTake(k, CheckFrom(k1, i, n + 1), i, n, p.event != NONE && Unheard(k1.table[i], n + 1));
    }
  }

  lemma NoneLeft(p: Process)
    ensures !Unheard(p, TOTAL_SIGNALS)
  {
  }

  lemma SkipPending(p: Process, n: Signal)
    requires n !in p.signals
    ensures (Fatal(p, n + 1) <==> Fatal(p, n)) && (Unheard(p, n + 1) <==> Unheard(p, n))
  {
  }

  lemma TakePending(p: Process, n: Signal)
    requires n in p.signals && !Fatal(p, n)
    ensures forall s :: !Fatal(Dropped(p, n).(state := s), n + 1)
    ensures forall s :: Unheard(Dropped(p, n).(state := s), n + 1) <==> Unheard(p, n + 1)
    ensures Unheard(p, n) <==> Unheard(p, n + 1) || !p.handlers[n].UserHandler?
    ensures !Deadly(p, n)
  {
    hide DefaultHandlers;
    var q := Dropped(p, n);
    assert forall s: Signal :: s != n ==> q.handlers[s] == p.handlers[s];
    assert forall s :: s in p.signals && n + 1 <= s ==> s in q.signals;
  }

  lemma DropSleeps(k: KState, i: Slot, n: Signal)
    requires Inv(k, {}) && i != 0 && Active(k.table[i])
    ensures var u := StaysUp(k.table[i], n); var p := k.table[i];
      var k' := SleepAgain(Put(k, i, Dropped(p, n)), i, p.handlers[n].UserHandler?);
      && k'.table[i] == Dropped(p, n).(state := if u then p.state else Asleep)
      && k' == (if !u && p.state == Ready then
                  k.(table := k.table[i := k'.table[i]], ready := Without(k.ready, i), waiting := k.waiting + [i])
                else k.(table := k.table[i := k'.table[i]]))
  {
    ParkedSlot(k, i);
    hide Inv, Without, DefaultHandlers;
  }

  lemma TakesDeadly(k: KState, i: Slot, s: Signal)
    requires Inv(k, {}) && i != 0 && Active(k.table[i]) && s in k.table[i].signals && Deadly(k.table[i], s)
    requires !k.faulted
    ensures var k' := TakeSignal(k, i, s);
      && !k'.faulted
      && (k'.table[i].state == Killed || (k'.table[i].state == Stopped && s > SIGCONT))
  {
    hide Inv, Terminate, KillHandler, StopHandler, Ends, Sound, Toggle, Steady, Calm;
    var k1 := Handle(k, i, s);
    if s == SIGHUP || s == SIGINT || s == SIGABRT || s == SIGTERM {
      EndsTerminate(k, i, s);
      EndsSound(k, k1, {});
    } else if s == SIGKILL {
      EndsKillHandler(k, i);
      EndsSound(k, k1, {});
    } else {
      SoundStop(k, i);
    }
    SoundInv(k, k1, {});
    OffReady(k1, i);
  }

  lemma OffReady(k: KState, i: Slot)
    requires Inv(k, {}) && k.table[i].state != Ready
    ensures i !in k.ready
  {
    hide Inv;
    if i in k.ready {
      ReadySlot(k, i);
    }
  }

  lemma {:induction false} StoppedSkips(k: KState, i: Slot, n: nat)
    requires SIGCONT < n <= TOTAL_SIGNALS && k.table[i].state == Stopped
    ensures CheckFrom(k, i, n) == k
    decreases TOTAL_SIGNALS - n
  {
    if n < TOTAL_SIGNALS {
      StoppedSkips(k, i, n + 1);
    }
  }

  /** A deadly signal pending: the process is dead or stopped in the end. */
  lemma {:induction false} DeadlyCheck(k: KState, i: Slot, n: nat)
    requires n <= TOTAL_SIGNALS && Inv(k, {}) && i != 0 && Active(k.table[i]) && !k.faulted
    requires Fatal(k.table[i], n)
    ensures Down(CheckFrom(k, i, n).table[i].state)
    decreases TOTAL_SIGNALS - n
  {
    hide Inv, TakeSignal, SleepAgain, Steady;
    var p := k.table[i];
    if n !in p.signals {
      SkipPending(p, n);
      DeadlyCheck(k, i, n + 1);
    } else {
      var k1 := TakeSignal(k, i, n);
      if Deadly(p, n) {
        TakesDeadly(k, i, n);
        if k1.table[i].state == Killed {
          DeadStays(k1, i, n + 1);
        } else {
          StoppedSkips(k1, i, n + 1);
        }
      } else {
        TakesHarmless(k, i, n);
        SteadyTake(k, i, n);
        SteadyInv(k, k1);
        DropSleeps(k, i, n);
        StillFatal(p, n);
        DeadlyCheck(k1, i, n + 1);
      }
    }
  }

  lemma StillFatal(p: Process, n: Signal)
    requires Fatal(p, n) && !Deadly(p, n)
    ensures forall s :: Fatal(Dropped(p, n).(state := s), n + 1)
  {
    hide DefaultHandlers;
    var s :| s in p.signals && n <= s && Deadly(p, s);
    var q := Dropped(p, n);
    assert s in q.signals && q.handlers[s] == p.handlers[s];
    assert forall t :: Deadly(q.(state := t), s);
  }

  /** A process that was pulled out of its sleep and is checked at the head of the ready queue goes
      back to sleep, on the event it was waiting for, if and only if one of its pending signals
      is not handled by user code and none of them ends or stops it. It is not asked whether the
      event has come in the meantime. */
  lemma SleepsAgainIff(k: KState, i: Slot)
    requires Inv(k, {}) && !k.faulted && i in k.ready && k.table[i].event != NONE
    ensures var p, k' := k.table[i], CheckPending(k, i);
      && (k'.table[i].state == Asleep <==> Unheard(p, 0) && !Fatal(p, 0))
      && (k'.table[i].state == Asleep ==> Settles(k, k', i, 0, true))
  {
    hide Inv, CheckFrom, Fatal, Unheard;
    ReadySlot(k, i);
    if Fatal(k.table[i], 0) {
      DeadlyCheck(k, i, 0);
    } else {
      HarmlessCheck(k, i, 0);
    }
  }

  /** The exit of a child does not reach a parent that waits for it but has been pulled out of its
      sleep: the parent keeps its event and, if it is checked then, goes back to sleep with a
      dead child, under the condition above. */
  lemma PulledWaiterMisses(k: KState, i: Slot, status: bv32, j: Slot)
    requires Inv(k, {i}) && i != 0 && Alive(k.table[i]) && k.table[i].state != Init && i !in k.suspended
    requires j != i && j in k.ready && k.table[j].event == STATE_CHANGE && !k.faulted
    ensures var k' := Exit(k, i, status);
      && k'.table[i].state == Killed && k'.table[j].event == STATE_CHANGE
      && (CheckPending(k', j).table[j].state == Asleep <==> Unheard(k'.table[j], 0) && !Fatal(k'.table[j], 0))
  {
    hide Inv, Exit, Ends, CheckFrom, Fatal, Unheard, StoppedJobs;
    WasReady(k, i, j);
    ExitExact(k, i, status);
    EndsExit(k, i, status);
    var k' := Exit(k, i, status);
    EndsInv(k, k', {});
    EndsEntry(k, k', {}, i);
    StaysReady(k', j);
    SleepsAgainIff(k', j);
  }

  lemma WasReady(k: KState, i: Slot, j: Slot)
    requires Inv(k, {i}) && j != i && j in k.ready
    ensures j != 0 && k.table[j].state == Ready && j !in k.waiting
  {
    hide NoDup, Data, InOrder;
  }

  lemma StaysReady(k: KState, j: Slot)
    requires Inv(k, {}) && j != 0 && k.table[j].state == Ready
    ensures j in k.ready
  {
    hide NoDup, Data, InOrder;
  }
}
