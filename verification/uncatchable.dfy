/** SIGKILL and SIGSTOP cannot be caught or ignored, on any run; a pending SIGKILL ends its process. */
module Uncatchable {
  import opened Sequences
  import opened ProcessModel
  import opened ProcessInvariant
  import opened SignalProofs
  import opened HandlerProofs
  import opened PendingProofs
  import opened KernelSteps
  import opened KernelRuns

  /** Every process that was ever ready has the kernel's handlers for the two signals. */
  ghost predicate AllArmed(t: Table) {
    forall i: Slot :: i != 0 && t[i].state != Unused && t[i].state != Init ==> Armed(t[i].handlers)
  }

  lemma DefaultArmed()
    ensures Armed(DefaultHandlers())
  {
  }

  lemma BootArmed()
    ensures AllArmed(Boot().table)
  {
    BootTable();
    DefaultArmed();
    hide DefaultHandlers, Boot;
  }

  /** No step takes the handlers away: not register_handler, which refuses the two signals, not
      the reset of a caught one, not fork or exec, which set the defaults. */
  lemma StepArmed(k: KState, a: Action)
    requires Good(k) && AllArmed(k.table)
    ensures AllArmed(Step(k, a).table)
  {
    hide Good, Ages, EventOf, Step;
    SlotLifeCycle(k, a);
    var k' := Step(k, a);
    forall i: Slot | i != 0 && k'.table[i].state != Unused && k'.table[i].state != Init
      ensures Armed(k'.table[i].handlers)
    {
      assert k.table[i].state != Unused && k.table[i].state != Init ==> Armed(k.table[i].handlers);
    }
  }

  lemma {:induction false} RunArmed(k: KState, acts: seq<Action>)
    requires Good(k) && AllArmed(k.table)
    ensures AllArmed(Run(k, acts).table)
    decreases |acts|
  {
    hide Good, AllArmed, Step;
    if acts != [] {
      StepArmed(k, acts[0]);
      GoodStep(k, acts[0]);
      RunArmed(Step(k, acts[0]), acts[1..]);
    }
  }

  /** On every run from boot, whatever handlers are registered, every process that was ever
      ready has the kernel's handlers for SIGKILL and SIGSTOP. */
  lemma ReachableArmed(acts: seq<Action>)
    ensures Good(Boot())
    ensures var k := Run(Boot(), acts);
      forall i: Slot :: i != 0 && k.table[i].state != Unused && k.table[i].state != Init ==>
        k.table[i].handlers[SIGKILL] == KernelHandler && k.table[i].handlers[SIGSTOP] == KernelHandler
  {
    hide Good, Boot, Run;
    GoodBoot();
    BootArmed();
    RunArmed(Boot(), acts);
  }

  // ----- a pending SIGKILL

  /** Alive, waiting to be checked, with SIGKILL pending. */
  predicate Doomed(p: Process) {
    Parked(p) && p.pid > 1 && SIGKILL in p.signals && p.handlers[SIGKILL] == KernelHandler
  }

  /** A signal before SIGKILL kills the process or leaves it doomed. */
  lemma EarlierSignal(k: KState, i: Slot, n: Signal)
    requires Inv(k, {}) && i != 0 && Doomed(k.table[i]) && !k.faulted
    requires n < SIGKILL && n in k.table[i].signals && k.table[i].state != Stopped
    ensures var k' := TakeSignal(k, i, n); !k'.faulted && (k'.table[i].state == Killed || Doomed(k'.table[i]))
  {
    hide Inv, Handle, SleepAgain, Steady;
    EarlierHandled(k, i, n);
    var k1 := Handle(k, i, n);
    SteadyHandle(k, i, n);
    SteadyInv(k, k1);
    var k2 := Put(k1, i, k1.table[i].(signals := Toggle(k1.table[i].signals, n)));
    if k1.table[i].state == Killed {
      DeadIsOff(k1, i);
    }
    BackToSleep(k2, i, k.table[i].handlers[n].UserHandler?);
  }

  lemma BackToSleep(k: KState, i: Slot, userHandled: bool)
    requires k.table[i].state == Killed ==> i !in k.ready
    ensures var k' := SleepAgain(k, i, userHandled);
      && k'.faulted == k.faulted && (k.table[i].state == Killed ==> k'.table[i].state == Killed)
      && (Doomed(k.table[i]) ==> Doomed(k'.table[i]))
  {
    hide Without;
  }

  lemma EarlierHandled(k: KState, i: Slot, n: Signal)
    requires Inv(k, {}) && i != 0 && Doomed(k.table[i]) && !k.faulted && n < SIGKILL && k.table[i].state != Stopped
    ensures var k' := Handle(k, i, n); !k'.faulted && (k'.table[i].state == Killed || Doomed(k'.table[i]))
  {
    hide Inv, Terminate, KillHandler, StopHandler, ContinueHandler, Ends, DefaultHandlers;
    EndsTerminate(k, i, n);
    EndsSound(k, Terminate(k, i, n), {});
  }

  /** check_pending_signals ends every process other than init and the idle one that has SIGKILL
      pending, whatever else is pending. */
  lemma {:induction false} KillIsCarriedOut(k: KState, i: Slot, n: nat)
    requires Inv(k, {}) && i != 0 && Doomed(k.table[i]) && !k.faulted && n <= SIGKILL
    ensures var k' := CheckFrom(k, i, n); !k'.faulted && k'.table[i].state == Killed
    decreases SIGKILL - n
  {
    hide Inv, TakeSignal, Steady;
    if n == SIGKILL {
      KillTaken(k, i);
      DeadStays(TakeSignal(k, i, SIGKILL), i, SIGKILL + 1);
    } else if n !in k.table[i].signals || k.table[i].state == Stopped {
      KillIsCarriedOut(k, i, n + 1);
    } else {
      EarlierSignal(k, i, n);
      var k1 := TakeSignal(k, i, n);
      SteadyTake(k, i, n);
      SteadyInv(k, k1);
      if k1.table[i].state == Killed {
        DeadStays(k1, i, n + 1);
      } else {
        KillIsCarriedOut(k1, i, n + 1);
      }
    }
  }

  lemma KillTaken(k: KState, i: Slot)
    requires Inv(k, {}) && i != 0 && Doomed(k.table[i]) && !k.faulted
    ensures var k' := TakeSignal(k, i, SIGKILL); !k'.faulted && k'.table[i].state == Killed
  {
    hide Inv, KillHandler, Ends, Without;
    EndsKillHandler(k, i);
    var k1 := KillHandler(k, i);
    EndsSound(k, k1, {});
    EndsInv(k, k1, {});
    var k2 := Put(k1, i, k1.table[i].(signals := Toggle(k1.table[i].signals, SIGKILL)));
    DeadIsOff(k1, i);
    assert SleepAgain(k2, i, false) == k2;
  }

  lemma DeadIsOff(k: KState, i: Slot)
    requires Inv(k, {}) && i != 0 && k.table[i].state == Killed
    ensures i !in k.ready
  {
    hide NoDup, Data, InOrder;
  }

  lemma ArmedAt(t: Table, i: Slot)
    requires AllArmed(t) && i != 0 && Parked(t[i])
    ensures t[i].handlers[SIGKILL] == KernelHandler
  {
  }

  /** On every run from boot, a check of the pending signals of a process that is ready, asleep or
      stopped ends it if SIGKILL is among them, unless it is init. */
  lemma KillEnds(acts: seq<Action>, i: Slot)
    ensures Good(Boot())
    ensures var k := Run(Boot(), acts);
      !k.faulted && i != 0 && Parked(k.table[i]) && k.table[i].pid != 1 && SIGKILL in k.table[i].signals ==>
        CheckPending(k, i).table[i].state == Killed
  {
    hide Good, Boot, Run, Inv, CheckFrom, AllArmed;
    GoodBoot();
    BootArmed();
    RunArmed(Boot(), acts);
    var k := Run(Boot(), acts);
    if !k.faulted && i != 0 && Parked(k.table[i]) && k.table[i].pid != 1 && SIGKILL in k.table[i].signals {
      GoodInv(k);
      PidPositive(k, i);
      ArmedAt(k.table, i);
      KillIsCarriedOut(k, i, 0);
    }
  }
}
