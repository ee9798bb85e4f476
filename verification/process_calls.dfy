/** fork, exec, wait and job control as steps of the process state. */
module ProcessCalls {
  import opened Sequences
  import opened ProcessModel
  import opened ProcessInvariant
  import opened WakeupProofs
  import opened SignalProofs
  import opened HandlerProofs
  import opened PendingProofs
  import opened KernelSteps

  // ----- fork

  function FindUnused(t: Table, i: nat): (r: Link)
    requires 1 <= i <= TABLE_SIZE
    ensures r != NIL ==> i <= r && t[r].state == Unused && forall j :: i <= j < r ==> t[j].state != Unused
    ensures r == NIL ==> forall j :: i <= j < TABLE_SIZE ==> t[j].state != Unused
    decreases TABLE_SIZE - i
  {
    if i == TABLE_SIZE then NIL else if t[i].state == Unused then i else FindUnused(t, i + 1)
  }

  /** A fresh slot with the next PID, in state INIT. */
  function Allocate(k: KState, i: Slot): KState {
    Put(k, i, Blank().(state := Init, event := NONE, pid := k.nextPid)).(nextPid := k.nextPid + 1)
  }

  /** The current process gives up the foreground so that its child can claim it. */
  function DropForeground(k: KState): KState {
    if k.foreground != NIL && k.table[k.current].pid == k.table[k.foreground].pid then k.(foreground := NIL) else k
  }

  /** The child up to the copy of the parent's memory. */
  function Conceive(k: KState, i: Slot): KState {
    var k1 := Allocate(k, i);
    DropForeground(Put(k1, i, k1.table[i].(ppid := k1.table[k1.current].pid)))
  }

  /** If the copy fails the slot stays in state INIT. */
  function ForkStep(k: KState, copied: bool): KState {
    var i := FindUnused(k.table, 1);
    if i == NIL then k
    else
      var k1 := Conceive(k, i);
      if !copied then k1
      else MakeReady(Put(k1, i, k1.table[i].(signals := {}, handlers := DefaultHandlers())), i)
  }

  // ----- exec

  /** An argument "&" makes the program a background job of its parent. */
  function Detach(k: KState): KState {
    var i := k.current;
    var parent := ParentOf(k, i);
    var k1 := if parent != NIL && k.table[parent].state != Killed then NewJob(k, parent, i) else k;
    DropForeground(Put(k1, i, k1.table[i].(daemon := true)))
  }

  lemma GoodParts(k: KState)
    requires Good(k)
    ensures Queues(k, {}) && Data(k) && InOrder(k.table, k.ready, k.arrivals)
  {
    hide Queues, Data, InOrder;
  }

  lemma UnusedSlot(k: KState, i: Slot)
    requires Inv(k, {}) && i != 0 && (k.table[i].state == Unused || k.table[i].state == Init)
    ensures i !in k.ready && i !in k.waiting && i !in k.suspended && i !in k.zombies
  {
    hide NoDup, Data, InOrder;
  }

  lemma NewbornPids(t: Table, i: Slot, q: Process, nextPid: int)
    requires Pids(t, nextPid) && Jobs(t) && i != 0 && t[i].state == Unused
    requires q.pid == nextPid && 0 <= q.ppid < nextPid && q.jobSpec == 0 && Alive(q)
    ensures Pids(t[i := q], nextPid + 1) && Jobs(t[i := q])
  {
    var t' := t[i := q];
    assert forall j: Slot :: j != i ==> t'[j] == t[j];
  }

  lemma NewbornQueues(k: KState, i: Slot, q: Process)
    requires Queues(k, {}) && i !in k.ready && i !in k.waiting && i !in k.suspended && i !in k.zombies
    requires q.state == Init
    ensures Queues(Put(k, i, q), {})
  {
  }

  /** The new entry, in one piece. */
  function Newborn(k: KState): Process {
    Blank().(state := Init, event := NONE, pid := k.nextPid, ppid := k.table[k.current].pid)
  }

  lemma GoodNewborn(k: KState, i: Slot)
    requires Good(k) && !k.faulted && i != 0 && k.table[i].state == Unused
    ensures Good(Put(k, i, Newborn(k)).(nextPid := k.nextPid + 1))
  {
    hide Holds, Jobs, Pids, InOrder;
    GoodInv(k);
    UnusedSlot(k, i);
    var q := Newborn(k);
    CurrentPid(k);
    NewbornPids(k.table, i, q, k.nextPid);
    NewbornQueues(k, i, q);
    InOrderPut(k, i, q);
  }

  lemma CurrentPid(k: KState)
    requires Good(k) && !k.faulted
    ensures 0 <= k.table[k.current].pid < k.nextPid
  {
    hide Queues, Jobs, InOrder, Reaped, SignalSets;
  }

  lemma GoodForeground(k: KState, f: Link)
    requires Good(k)
    ensures Good(k.(foreground := f))
  {
    hide Inv, Ends, Sound;
    GoodInv(k);
    EndsForeground(k, f, {});
    EndsInv(k, k.(foreground := f), {});
  }

  lemma ConceiveNewborn(k: KState, i: Slot)
    requires i != k.current
    ensures Conceive(k, i) == DropForeground(Put(k, i, Newborn(k)).(nextPid := k.nextPid + 1))
  {
    var k1 := Allocate(k, i);
    assert k1.table[i := k1.table[i].(ppid := k1.table[k1.current].pid)] == k.table[i := Newborn(k)];
  }

  lemma GoodConceive(k: KState, i: Slot)
    requires Good(k) && !k.faulted && i != 0 && k.table[i].state == Unused
    ensures Good(Conceive(k, i)) && Conceive(k, i).table[i].state == Init && Conceive(k, i).table[i].signals == {}
    ensures Conceive(k, i).table[i].pid == k.nextPid
  {
    hide Inv;
    ConceiveNewborn(k, i);
    hide Good, Conceive;
    GoodNewborn(k, i);
    GoodForeground(Put(k, i, Newborn(k)).(nextPid := k.nextPid + 1), NIL);
  }

  /** A child that is ready to run joins the ready queue. */
  lemma GoodBirth(k: KState, i: Slot)
    requires Good(k) && !k.faulted && i != 0 && k.table[i].state == Init
    ensures Good(MakeReady(k, i))
  {
    hide Queues, Jobs, Pids, InOrder;
    GoodInv(k);
    UnusedSlot(k, i);
    var q := k.table[i].(state := Ready, arrival := k.arrivals);
    RestatePids(k.table, i, q, k.nextPid);
    JoinReadyOrder(k, i);
    BirthQueues(k, i);
  }

  lemma BirthQueues(k: KState, i: Slot)
    requires Queues(k, {}) && i != 0 && i !in k.ready && i !in k.waiting && i !in k.suspended && i !in k.zombies
    ensures Queues(MakeReady(k, i), {})
  {
    NoDupAppend(k.ready, i);
  }

  lemma GoodFork(k: KState, copied: bool)
    requires Good(k) && !k.faulted
    ensures Good(ForkStep(k, copied))
  {
    hide Good, Inv, Conceive, Calm;
    var i := FindUnused(k.table, 1);
    if i != NIL {
      var k1 := Conceive(k, i);
      GoodConceive(k, i);
      if copied {
        GoodInv(k1);
        var q := k1.table[i].(signals := {}, handlers := DefaultHandlers());
        CalmPut(k1, i, q, {});
        GoodCalm(k1, Put(k1, i, q));
        ConceiveFields(k, i);
        GoodBirth(Put(k1, i, q), i);
      }
    }
  }

  lemma ConceiveFields(k: KState, i: Slot)
    ensures Conceive(k, i).faulted == k.faulted && Conceive(k, i).current == k.current
  {
  }

  // ----- exec

  lemma GoodDetach(k: KState)
    requires Good(k) && !k.faulted && k.current != 0
    ensures Good(Detach(k)) && !Detach(k).faulted && Detach(k).current == k.current
  {
    hide Good, Inv, NewJob, Calm;
    GoodInv(k);
    CurrentSlot(k);
    var i := k.current;
    var parent := ParentOf(k, i);
    var k1 := if parent != NIL && k.table[parent].state != Killed then NewJob(k, parent, i) else k;
    CalmSelf(k, {});
    if parent != NIL && k.table[parent].state != Killed {
      CalmNewJob(k, parent, i, {});
    }
    GoodCalm(k, k1);
    CalmQueues(k, k1, {});
    CalmSteady(k, k1);
    SteadySame(k, k1);
    GoodInv(k1);
    CurrentSlot(k1);
    GoodDaemon(k1);
    GoodForeground(Put(k1, i, k1.table[i].(daemon := true)), NIL);
  }

  lemma GoodDaemon(k: KState)
    requires Good(k) && !k.faulted && k.current != 0
    ensures Good(Put(k, k.current, k.table[k.current].(daemon := true)))
  {
    hide Inv, Follows, NoRevival;
    CurrentSlot(k);
    InvPut(k, k.current, k.table[k.current].(daemon := true), {});
  }

  function ExecStep(k: KState, found: bool, background: bool, loaded: bool): KState
    requires Good(k) && !k.faulted && k.current != 0
  {
    if !found then k
    else
      var k1 := if background then Detach(k) else k;
      GoodDetach(k);
      if loaded then Put(k1, k1.current, k1.table[k1.current].(signals := {}, handlers := DefaultHandlers()))
      else ExitStep(k1, 1)
  }

  lemma GoodExec(k: KState, found: bool, background: bool, loaded: bool)
    requires Good(k) && !k.faulted && k.current != 0
    ensures Good(ExecStep(k, found, background, loaded))
  {
    hide Good, Inv, Detach, ExitStep, Calm;
    if found {
      var k1 := if background then Detach(k) else k;
      GoodDetach(k);
      if loaded {
        GoodInv(k1);
        CurrentSlot(k1);
        var q := k1.table[k1.current].(signals := {}, handlers := DefaultHandlers());
        CalmPut(k1, k1.current, q, {});
        GoodCalm(k1, Put(k1, k1.current, q));
      } else {
        GoodExit(k1, 1);
      }
    }
  }

  // ----- job control and handlers

  /** A push on the ready queue, whatever the state of the process. */
  function Enqueue(k: KState, x: Slot): KState {
    k.(table := k.table[x := k.table[x].(arrival := k.arrivals)], ready := k.ready + [x], arrivals := k.arrivals + 1)
  }

  /** The part of move_to_fore for a process that is not stopped. */
  function BringForward(k: KState, x: Slot): KState {
    var p := k.table[x];
    var q := p.(event := if p.event == DAEMON_INPUT then KEYBOARD_INPUT else p.event);
    var k2 := Put(k, x, q);
    var k3 := if p.state == Asleep then Put(k2, x, q.(state := Ready)).(waiting := Without(k2.waiting, x)) else k2;
    var k4 := k3.(foreground := x);
    if x in k4.ready then k4 else Enqueue(k4, x)
  }

  /** move_to_fore on the process `x`, in every state. */
  function MoveToFore(k: KState, x: Slot): KState {
    var k1 := Put(k, x, k.table[x].(daemon := false));
    if k1.table[x].state == Stopped then k1 else BringForward(k1, x)
  }

  /** Bringing a running or dead process to the foreground is the branch that breaks the queues. */
  function ForegroundStep(k: KState, jobSpec: int): KState {
    var x := FindJob(k, jobSpec, k.table[k.current].ppid);
    if x == NIL then k
    else if Parked(k.table[x]) then MoveToFore(k, x)
    else k.(faulted := true)
  }

  function BackgroundStep(k: KState, jobSpec: int): KState {
    var x := FindJob(k, jobSpec, k.table[k.current].ppid);
    if x == NIL || k.table[x].state != Stopped then k
    else
      var p := k.table[x];
      Put(k, x, p.(daemon := true,
                   event := if p.event == KEYBOARD_INPUT || p.event == FG_PAUSED then DAEMON_INPUT else p.event))
  }

  /** SIGKILL and SIGSTOP cannot be caught; nor can the last signal of the table. */
  function RegisterStep(k: KState, sig: int, handler: Handler): KState {
    if 0 < sig < TOTAL_SIGNALS - 1 && sig != SIGKILL && sig != SIGSTOP then
      Put(k, k.current, k.table[k.current].(handlers := k.table[k.current].handlers[sig := handler]))
    else k
  }

  lemma SteadyPutParked(k: KState, x: Slot, q: Process)
    requires Inv(k, {}) && x != 0 && Parked(k.table[x])
    requires q == k.table[x].(daemon := q.daemon, event := q.event)
    ensures Steady(k, Put(k, x, q)) && Put(k, x, q).faulted == k.faulted
  {
    ParkedSlot(k, x);
    hide Inv, Follows, NoRevival;
    InvPut(k, x, q, {});
  }

  /** What move_to_fore does to a process on one of the queues. */
  lemma SteadyMoveToFore(k: KState, x: Slot)
    requires Inv(k, {}) && x != 0 && Parked(k.table[x])
    ensures Steady(k, MoveToFore(k, x)) && MoveToFore(k, x).faulted == k.faulted
  {
    ParkedSlot(k, x);
    hide Inv, Follows, NoRevival, Steady, Calm, Without, Ends, Sound;
    var p := k.table[x];
    if p.state == Stopped {
      SteadyPutParked(k, x, p.(daemon := false));
    } else {
      var event := if p.event == DAEMON_INPUT then KEYBOARD_INPUT else p.event;
      var q := p.(daemon := false, event := event);
      SteadyPutParked(k, x, q);
      var k2 := Put(k, x, q);
      SteadyInv(k, k2);
      var k3 := k2;
      if p.state == Asleep {
        CalmPull(k2, x, {});
        k3 := MakeReady(k2.(waiting := Without(k2.waiting, x)), x);
        CalmSteady(k2, k3);
        SteadyThen(k, k2, k3);
        CalmQueues(k2, k3, {});
      }
      SteadyInv(k, k3);
      EndsForeground(k3, x, {});
      EndsSound(k3, k3.(foreground := x), {});
      SoundSteady(k3, k3.(foreground := x));
      SteadyThen(k, k3, k3.(foreground := x));
      MoveToForeForm(k, x, k3);
    }
  }

  lemma MoveToForeForm(k: KState, x: Slot, k3: KState)
    requires k.table[x].state == Ready ==> x in k.ready
    requires k.table[x].state == Asleep ==> x !in k.ready
    requires k.table[x].state == Ready || k.table[x].state == Asleep
    requires var p := k.table[x];
      var k2 := Put(k, x, p.(daemon := false, event := if p.event == DAEMON_INPUT then KEYBOARD_INPUT else p.event));
      k3 == if p.state == Asleep then MakeReady(k2.(waiting := Without(k2.waiting, x)), x) else k2
    ensures MoveToFore(k, x) == k3.(foreground := x)
  {
    hide Without;
    assert MoveToFore(k, x).table == k3.table;
  }

  lemma GoodSteady(k: KState, k': KState)
    requires Good(k) && Steady(k, k') && k'.faulted == k.faulted
    requires k.table[k.current].state == Running ==> k'.table[k.current].state == Running
    ensures Good(k')
  {
    hide Inv;
    SteadySame(k, k');
  }

  lemma GoodForegroundStep(k: KState, jobSpec: int)
    requires Good(k) && !k.faulted
    ensures Good(ForegroundStep(k, jobSpec))
  {
    hide Good, Inv, Steady, MoveToFore;
    GoodInv(k);
    var x := FindJob(k, jobSpec, k.table[k.current].ppid);
    if x != NIL {
      if Parked(k.table[x]) {
        SteadyMoveToFore(k, x);
        MoveToForeOthers(k, x);
        RunningNotParked(k, x);
        GoodSteady(k, MoveToFore(k, x));
      } else {
        SteadyFault(k);
        SteadyInv(k, k.(faulted := true));
        GoodFaulted(k.(faulted := true));
      }
    }
  }

  lemma RunningNotParked(k: KState, x: Slot)
    requires Good(k) && !k.faulted && Parked(k.table[x])
    ensures x != k.current
  {
    hide Inv;
  }

  lemma MoveToForeOthers(k: KState, x: Slot)
    ensures forall j: Slot :: j != x ==> MoveToFore(k, x).table[j] == k.table[j]
  {
    hide Without;
  }

  lemma GoodBackground(k: KState, jobSpec: int)
    requires Good(k) && !k.faulted
    ensures Good(BackgroundStep(k, jobSpec))
  {
    hide Good, Inv, Steady;
    GoodInv(k);
    var x := FindJob(k, jobSpec, k.table[k.current].ppid);
    if x != NIL && k.table[x].state == Stopped {
      var k' := BackgroundStep(k, jobSpec);
      SteadyPutParked(k, x, k'.table[x]);
      RunningNotParked(k, x);
      GoodSteady(k, k');
    }
  }

  lemma GoodRegister(k: KState, sig: int, handler: Handler)
    requires Good(k)
    ensures Good(RegisterStep(k, sig, handler))
  {
    hide Good, Inv, Calm;
    GoodInv(k);
    if 0 < sig < TOTAL_SIGNALS - 1 && sig != SIGKILL && sig != SIGSTOP {
      var q := k.table[k.current].(handlers := k.table[k.current].handlers[sig := handler]);
      SlotSound(k, k.current, {});
      CalmPut(k, k.current, q, {});
      GoodCalm(k, Put(k, k.current, q));
    }
  }

  /** Between steps, move_to_fore keeps the queues exactly for a process that is on the
      ready queue, the wait list or the suspended list. */
  lemma MoveToForeKeepsQueuesIff(k: KState, x: Slot)
    requires Inv(k, {}) && x != 0 && Occupied(k.table[x])
    ensures Queues(MoveToFore(k, x), {}) <==> Parked(k.table[x])
  {
    if Parked(k.table[x]) {
      SteadyMoveToFore(k, x);
      SteadyInv(k, MoveToFore(k, x));
      hide Data, MoveToFore, Steady;
    } else {
      MoveToForeBreaks(k, x);
    }
  }

  lemma MoveToForeBreaks(k: KState, x: Slot)
    requires Queues(k, {}) && x != 0 && Occupied(k.table[x]) && !Parked(k.table[x])
    ensures !Queues(MoveToFore(k, x), {})
  {
    var k' := MoveToFore(k, x);
    assert x !in k.ready;
    assert k'.ready == k.ready + [x] && k'.ready[|k.ready|] == x;
    assert k'.table[x].state == k.table[x].state;
  }
}
