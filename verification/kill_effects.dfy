/** What the kernel's handler of SIGKILL does to the process, its children and the foreground. */
module KillEffects {
  import opened Sequences
  import opened ProcessModel
  import opened ProcessInvariant
  import opened WakeupProofs
  import opened SignalProofs
  import opened HandlerProofs
  import opened ProcessEffects
  import opened ExitEffects
  import opened StopEffects

  lemma {:induction false} NobodyHit(k: KState, sender: int, sig: Signal, n: nat)
    requires 2 <= n <= TABLE_SIZE && forall i: Slot :: i >= n ==> !Hit(k.table[i], sender, false)
    ensures KillGroupFrom(k, sender, sig, n) == k
    decreases TABLE_SIZE - n
  {
    hide Deliver;
    if n < TABLE_SIZE {
      assert !Hit(k.table[n], sender, false);
      NobodyHit(k, sender, sig, n + 1);
    }
  }

  /** The SIGKILL handler signals the group of its victim after init has taken over the
      victim's children: with a living init the signal reaches nobody. */
  lemma SlayReachesNobody(k: KState, i: Slot, pid: int)
    requires pid != 1
    requires var init := GetProcess(k, 1); init != NIL && k.table[init].state != Killed
    ensures Slay(k, i, pid) ==
      var k1 := SwitchParent(k, pid, 1, false);
      Put(k1, i, k1.table[i].(state := Killed, event := pid, daemon := false))
    ensures forall j: Slot :: j != 0 && Occupied(k.table[j]) && k.table[j].ppid == pid ==>
      SwitchParent(k, pid, 1, false).table[j].ppid == 1
  {
    hide Transfer, SwitchParentFrom;
    var init := GetProcess(k, 1);
    var k1 := SwitchParent(k, pid, 1, false);
    SwitchParentExact(k, init, pid, 1, false, 1);
    Orphans(k, k1, pid);
    NobodyHit(k1, pid, SIGKILL, 2);
  }

  predicate InitLives(k: KState) {
    var init := GetProcess(k, 1);
    init != NIL && k.table[init].state != Killed
  }

  /** Without a living init nobody takes over the children, and the group signal reaches all of
      them. */
  lemma SlayReachesChildren(k: KState, i: Slot, pid: int)
    requires Inv(k, {i}) && i != 0 && k.table[i].pid == pid && pid > 1 && !InitLives(k)
    ensures Spread(k, KillGroup(k, pid, SIGKILL), pid, false, SIGKILL, 2)
    ensures var k1 := KillGroup(k, pid, SIGKILL);
      Slay(k, i, pid) == Put(k1, i, k1.table[i].(state := Killed, event := pid, daemon := false))
  {
    hide Inv, SleepersListed, KillGroupFrom, Spread, GetProcess;
    LimboListed(k, pid, {i});
    KillGroupExact(k, pid, SIGKILL, 2);
  }

  lemma SlayReachesIff(k: KState, i: Slot, pid: int, j: Slot)
    requires Inv(k, {i}) && i != 0 && k.table[i].pid == pid && pid > 1 && j >= 2 && Hit(k.table[j], pid, false)
    ensures SIGKILL in Slay(k, i, pid).table[j].signals <==> SIGKILL in k.table[j].signals || !InitLives(k)
  {
    hide Inv, Slay, KillGroupFrom, SwitchParentFrom, GetProcess;
    if InitLives(k) {
      hide Transfer;
      SlayReachesNobody(k, i, pid);
      SwitchParentExact(k, GetProcess(k, 1), pid, 1, false, 1);
      Handed(k, SwitchParent(k, pid, 1, false), pid, j);
    } else {
      SlayReachesChildren(k, i, pid);
      hide HitSleepers;
      assert HitEntry(k.table[j], KillGroup(k, pid, SIGKILL).table[j], SIGKILL);
    }
  }

  lemma Handed(k: KState, k': KState, pid: int, j: Slot)
    requires Transfer(k, k', pid, 1, false, 1) && j != 0
    ensures k'.table[j].signals == k.table[j].signals
  {
    assert Adopted(k.table[j], k'.table[j], pid, 1, false);
  }

  /** What the parts of the SIGKILL handler around Slay keep of an entry. */
  predicate Spares(p: Process, q: Process) {
    && q.pid == p.pid && q.ppid == p.ppid && (Occupied(q) <==> Occupied(p)) && (Alive(q) <==> Alive(p))
    && (q.state == Init <==> p.state == Init)
    && (SIGKILL in q.signals <==> SIGKILL in p.signals)
  }

  lemma BeforeSlay(k: KState, i: Slot, status: bv32, j: Slot)
    requires Inv(k, {}) && i != 0 && Parked(k.table[i])
    ensures var k3 := Withdraw(Notify(Put(k, i, k.table[i].(status := status)), ParentOf(k, i), status), i,
                               ParentOf(k, i));
      Inv(k3, {i}) && Spares(k.table[j], k3.table[j])
  {
    hide Inv, Ends, Withdraw, Notify, GetProcess;
    var parent := ParentOf(k, i);
    var k1 := Put(k, i, k.table[i].(status := status));
    var k2 := Notify(k1, parent, status);
    NotifiedInv(k, i, parent, status);
    NotifiedSpares(k1, parent, status, j);
    EndsWithdraw(k2, i, parent);
    var k3 := Withdraw(k2, i, parent);
    EndsInv(k2, k3, {i});
    EndsEntry(k2, k3, {i}, j);
    WithdrawAlive(k2, i, parent);
    WithdrawEntry(k2, i, parent, j);
  }

  lemma NotifiedSpares(k: KState, parent: Link, status: bv32, j: Slot)
    ensures Spares(k.table[j], Notify(k, parent, status).table[j])
  {
  }

  lemma WithdrawEntry(k: KState, i: Slot, parent: Link, j: Slot)
    requires Inv(k, {}) && i != 0 && Parked(k.table[i])
    ensures var q := Withdraw(k, i, parent).table[j];
      q.ppid == k.table[j].ppid && q.signals == k.table[j].signals
  {
    hide Inv, LeaveActive, GiveWay, NoDup, Without;
    if k.table[i].state != Stopped {
      OffActive(k, i);
      LeavesTable(k, i);
      GiveWayEntry(LeaveActive(k, i), i, parent, j);
    }
  }

  lemma SameInit(k: KState, k': KState)
    requires forall j: Slot :: Spares(k.table[j], k'.table[j])
    ensures InitLives(k') <==> InitLives(k)
  {
    hide FindPid;
    FindPidFrame(k.table, k'.table, 1, 1);
  }

  /** SIGKILL for a process reaches a living child of it if and only if there is no living init. */
  lemma KillReachesChildrenIff(k: KState, i: Slot, j: Slot)
    requires Inv(k, {}) && i != 0 && Parked(k.table[i]) && k.table[i].pid > 1
    requires j >= 2 && Hit(k.table[j], k.table[i].pid, false)
    ensures SIGKILL in KillHandler(k, i).table[j].signals <==> SIGKILL in k.table[j].signals || !InitLives(k)
  {
    hide Inv, Slay, Bury, Withdraw, Notify, GetProcess, NoDup, SignalBits, WakeUp, Spares, InitLives;
    var pid, status, parent := k.table[i].pid, 0x100 | SignalBits(SIGKILL), ParentOf(k, i);
    KilledParent(k, i, status);
    var k3 := Withdraw(Notify(Put(k, i, k.table[i].(status := status)), parent, status), i, parent);
    forall n: Slot
      ensures Spares(k.table[n], k3.table[n])
    {
      BeforeSlay(k, i, status, n);
    }
    BeforeSlay(k, i, status, j);
    SameInit(k, k3);
    SparesHit(k, k3, i, j);
    SlayReachesIff(k3, i, pid, j);
    EndSlay(k3, i, pid);
    BurySignals(Slay(k3, i, pid), i, j);
  }

  lemma SparesHit(k: KState, k': KState, i: Slot, j: Slot)
    requires Spares(k.table[i], k'.table[i]) && Spares(k.table[j], k'.table[j])
    requires Parked(k.table[i])
    ensures k'.table[i].pid == k.table[i].pid && Alive(k'.table[i]) && k'.table[i].state != Init
    ensures Hit(k'.table[j], k.table[i].pid, false) <==> Hit(k.table[j], k.table[i].pid, false)
    ensures SIGKILL in k'.table[j].signals <==> SIGKILL in k.table[j].signals
  {
  }

  lemma EndSlay(k: KState, i: Slot, pid: int)
    requires Inv(k, {i}) && i != 0 && k.table[i].pid == pid && Occupied(k.table[i]) && k.table[i].state != Init
    ensures Inv(Slay(k, i, pid), {i})
  {
    hide Inv, Ends;
    EndsSlay(k, i, pid);
    EndsInv(k, Slay(k, i, pid), {i});
  }

  lemma BurySignals(k: KState, i: Slot, j: Slot)
    requires Inv(k, {i})
    ensures Bury(k, i).table[j].signals == k.table[j].signals
  {
    hide Inv, WakeUp, NoDup;
    WaitersSleep(k, {i});
    WakeUpEntry(k.(zombies := k.zombies + [i]), STATE_CHANGE, j);
  }

  lemma Orphans(k: KState, k': KState, pid: int)
    requires Transfer(k, k', pid, 1, false, 1) && pid != 1
    ensures forall j: Slot :: j >= 2 ==> !Hit(k'.table[j], pid, false)
    ensures forall j: Slot :: j != 0 && Occupied(k.table[j]) && k.table[j].ppid == pid ==> k'.table[j].ppid == 1
  {
    forall j: Slot | j != 0
      ensures Occupied(k'.table[j]) ==> k'.table[j].ppid != pid
      ensures Occupied(k.table[j]) && k.table[j].ppid == pid ==> k'.table[j].ppid == 1
    {
      assert Adopted(k.table[j], k'.table[j], pid, 1, false);
    }
  }

  /** What the later parts of the SIGKILL handler keep of an entry. */
  predicate Remembers(p: Process, q: Process) {
    q.pid == p.pid && q.status == p.status && p.signals <= q.signals
  }

  lemma WithdrawExact(k: KState, i: Slot, parent: Link, j: Slot)
    requires Inv(k, {}) && i != 0 && Parked(k.table[i])
    ensures var k' := Withdraw(k, i, parent); k'.zombies == k.zombies && Remembers(k.table[j], k'.table[j])
  {
    hide Inv, LeaveActive, GiveWay, NoDup, Without;
    if k.table[i].state != Stopped {
      OffActive(k, i);
      LeavesTable(k, i);
      GiveWayEntry(LeaveActive(k, i), i, parent, j);
    }
  }

  lemma SlayExact(k: KState, i: Slot, pid: int, j: Slot)
    requires Inv(k, {i}) && i != 0 && k.table[i].pid == pid && pid > 1 && j != 0
    ensures var k' := Slay(k, i, pid);
      && k'.zombies == k.zombies && Remembers(k.table[j], k'.table[j])
      && k'.table[i].state == Killed && k'.table[i].event == pid && !k'.table[i].daemon
  {
    hide Inv, Calm, SwitchParentFrom, KillGroupFrom, SleepersListed, GetProcess, Transfer, Spread;
    var k4 := SwitchParent(k, pid, 1, false);
    var init := GetProcess(k, 1);
    if init != NIL && k.table[init].state != Killed {
      SwitchParentExact(k, init, pid, 1, false, 1);
      TransferRemembers(k, k4, pid, j);
      TransferRemembers(k, k4, pid, i);
    }
    CalmSwitchParent(k, pid, false, {i});
    CalmInv(k, k4, {i});
    LimboListed(k4, pid, {i});
    KillGroupExact(k4, pid, SIGKILL, 2);
    SpreadRemembers(k4, KillGroup(k4, pid, SIGKILL), pid, j);
  }

  lemma TransferRemembers(k: KState, k': KState, pid: int, j: Slot)
    requires Transfer(k, k', pid, 1, false, 1) && j != 0
    ensures k'.zombies == k.zombies && Remembers(k.table[j], k'.table[j])
  {
    assert Adopted(k.table[j], k'.table[j], pid, 1, false);
  }

  lemma SpreadRemembers(k: KState, k': KState, pid: int, j: Slot)
    requires Spread(k, k', pid, false, SIGKILL, 2)
    ensures k'.zombies == k.zombies && Remembers(k.table[j], k'.table[j])
  {
    hide HitSleepers;
    assert HitEntry(k.table[j], k'.table[j], SIGKILL) || k'.table[j] == k.table[j];
  }

  lemma SlayAlive(k: KState, i: Slot, pid: int)
    requires Inv(k, {i}) && i != 0 && k.table[i].pid == pid && Occupied(k.table[i]) && k.table[i].state != Init
    ensures var k' := Slay(k, i, pid);
      && k'.foreground == k.foreground
      && forall j: Slot :: Alive(k'.table[j]) <==> j != i && Alive(k.table[j])
  {
    hide Inv, Calm, SwitchParent, KillGroupFrom;
    var k4 := SwitchParent(k, pid, 1, false);
    CalmSwitchParent(k, pid, false, {i});
    CalmInv(k, k4, {i});
    CalmAlive(k, k4, {i});
    CalmKillGroupFrom(k4, pid, SIGKILL, 2, {i});
    CalmAlive(k4, KillGroup(k4, pid, SIGKILL), {i});
  }

  lemma WithdrawAlive(k: KState, i: Slot, parent: Link)
    requires Inv(k, {}) && i != 0 && Parked(k.table[i])
    ensures var k' := Withdraw(k, i, parent);
      && k'.foreground == (if k.table[i].state == Stopped then k.foreground
                           else YieldForeground(k, i, parent).foreground)
      && SameAlive(k, k')
  {
    hide Inv, Ends, LeaveActive, GiveWay, Without;
    if k.table[i].state != Stopped {
      var k1 := LeaveActive(k, i);
      EndsLeaveActive(k, i);
      EndsInv(k, k1, {i});
      LeavesTable(k, i);
      GiveWayAlive(k1, i, parent, {i});
    }
  }

  /** SIGKILL takes one life, and gives up the foreground unless its target is stopped. */
  lemma KillAlive(k: KState, i: Slot)
    requires Inv(k, {}) && i != 0 && Parked(k.table[i]) && k.table[i].pid > 1
    ensures var k' := KillHandler(k, i);
      && k'.foreground == (if k.table[i].state == Stopped then k.foreground
                           else YieldForeground(k, i, ParentOf(k, i)).foreground)
      && forall j: Slot :: Alive(k'.table[j]) <==> j != i && Alive(k.table[j])
  {
    hide Inv, Ends, Calm, Slay, Withdraw, Bury, Notify, GetProcess, SignalBits;
    var pid, status := k.table[i].pid, 0x100 | SignalBits(SIGKILL);
    SlotSound(k, i, {});
    var q := k.table[i].(status := status);
    var k1 := Put(k, i, q);
    CalmPut(k, i, q, {});
    CalmInv(k, k1, {});
    KilledParent(k, i, status);
    var parent := ParentOf(k, i);
    EndsNotify(k1, parent, status, {});
    var k2 := Notify(k1, parent, status);
    CalmThen(k, k1, k2, {});
    CalmInv(k, k2, {});
    CalmAlive(k, k2, {});
    NotifiedState(k1, i, parent, status);
    WithdrawAlive(k2, i, parent);
    SameYield(k, k2, i, parent);
    EndsWithdraw(k2, i, parent);
    var k3 := Withdraw(k2, i, parent);
    EndsInv(k2, k3, {i});
    EndsEntry(k2, k3, {i}, i);
    SlayAlive(k3, i, pid);
    EndsSlay(k3, i, pid);
    var k4 := Slay(k3, i, pid);
    EndsInv(k3, k4, {i});
    EndsEntry(k3, k4, {i}, i);
    BuryAlive(k4, i);
    assert KillHandler(k, i) == Bury(k4, i);
  }

  lemma NotifiedState(k: KState, i: Slot, parent: Link, status: bv32)
    ensures Notify(k, parent, status).table[i].state == k.table[i].state
  {
  }

  /** SIGKILL ends a process that is ready, asleep or stopped, and nobody else: it is the last
      zombie, its status says by which signal it died, and a living parent has SIGCHLD and that
      status. If it held the foreground it gives it up, unless it was stopped: then the pointer
      stays with the dead process. */
  lemma KillExact(k: KState, i: Slot)
    requires Inv(k, {}) && i != 0 && Parked(k.table[i]) && k.table[i].pid > 1
    ensures var k' := KillHandler(k, i); var parent := ParentOf(k, i); var status := 0x100 | SignalBits(SIGKILL);
      && Inv(k', {}) && k'.table[i].state == Killed && k'.table[i].pid == k.table[i].pid
      && k'.zombies == k.zombies + [i]
      && (parent != i ==> k'.table[i].status == status)
      && (CanBeTold(k, i, parent) ==> SIGCHLD in k'.table[parent].signals && k'.table[parent].status == status)
      && k'.foreground == (if k.table[i].state == Stopped then k.foreground
                           else YieldForeground(k, i, parent).foreground)
      && forall j: Slot :: Alive(k'.table[j]) <==> j != i && Alive(k.table[j])
  {
    KillAlive(k, i);
    hide Inv, Ends, Slay, Withdraw, Bury, YieldForeground, FindPid, SignalBits, Remembers, Calm, NoDup;
    EndsKillHandler(k, i);
    EndsInv(k, KillHandler(k, i), {});
    var pid := k.table[i].pid;
    var status := 0x100 | SignalBits(SIGKILL);
    var k1 := Put(k, i, k.table[i].(status := status));
    KilledParent(k, i, status);
    var parent := ParentOf(k, i);
    var k2 := Notify(k1, parent, status);
    NotifiedInv(k, i, parent, status);
    KillTail(k2, i, parent, pid, i);
    if parent != NIL {
      KillTail(k2, i, parent, pid, parent);
    }
    var k' := Bury(Slay(Withdraw(k2, i, parent), i, pid), i);
    assert k' == KillHandler(k, i);
    NotifiedEntries(k, i, parent, status, k');
  }

  lemma KilledParent(k: KState, i: Slot, status: bv32)
    ensures ParentOf(Put(k, i, k.table[i].(status := status)), i) == ParentOf(k, i)
  {
    hide FindPid;
    FindPidFrame(k.table, k.table[i := k.table[i].(status := status)], k.table[i].ppid, 1);
  }

  lemma NotifiedInv(k: KState, i: Slot, parent: Link, status: bv32)
    requires Inv(k, {}) && i != 0 && Parked(k.table[i]) && parent == ParentOf(k, i)
    ensures var k2 := Notify(Put(k, i, k.table[i].(status := status)), parent, status);
      Inv(k2, {}) && Parked(k2.table[i]) && k2.table[i].pid == k.table[i].pid && k2.zombies == k.zombies
  {
    hide Inv, Calm, GetProcess, Notify;
    SlotSound(k, i, {});
    var q := k.table[i].(status := status);
    var k1 := Put(k, i, q);
    CalmPut(k, i, q, {});
    CalmInv(k, k1, {});
    EndsNotify(k1, parent, status, {});
    var k2 := Notify(k1, parent, status);
    CalmInv(k1, k2, {});
    CalmQueues(k1, k2, {});
    ParkedStays(k1, k2, i);
  }

  /** What the entries hold right after the report is what they hold in the end. */
  lemma NotifiedEntries(k: KState, i: Slot, parent: Link, status: bv32, k': KState)
    requires var k2 := Notify(Put(k, i, k.table[i].(status := status)), parent, status);
      Remembers(k2.table[i], k'.table[i]) && (parent != NIL ==> Remembers(k2.table[parent], k'.table[parent]))
    ensures k'.table[i].pid == k.table[i].pid && (parent != i ==> k'.table[i].status == status)
    ensures CanBeTold(k, i, parent) ==> SIGCHLD in k'.table[parent].signals && k'.table[parent].status == status
  {
  }

  lemma KillTail(k: KState, i: Slot, parent: Link, pid: int, j: Slot)
    requires Inv(k, {}) && i != 0 && Parked(k.table[i]) && k.table[i].pid == pid && pid > 1 && j != 0
    ensures var k' := Bury(Slay(Withdraw(k, i, parent), i, pid), i);
      Remembers(k.table[j], k'.table[j]) && k'.zombies == k.zombies + [i]
  {
    hide Inv, Ends, Slay, Withdraw, NoDup, WakeUp;
    var k1 := Withdraw(k, i, parent);
    EndsWithdraw(k, i, parent);
    EndsInv(k, k1, {i});
    EndsEntry(k, k1, {i}, i);
    WithdrawExact(k, i, parent, j);
    var k2 := Slay(k1, i, pid);
    EndsSlay(k1, i, pid);
    EndsInv(k1, k2, {i});
    SlayExact(k1, i, pid, j);
    WaitersSleep(k2, {i});
    WakeUpEntry(k2.(zombies := k2.zombies + [i]), STATE_CHANGE, j);
  }

  /** The entry is reset for a new process: no daemon, and the event by which wait finds it. */
  lemma KillResets(k: KState, i: Slot)
    requires Inv(k, {}) && i != 0 && Parked(k.table[i]) && k.table[i].pid > 1
    ensures var q := KillHandler(k, i).table[i];
      q.state == Killed && q.event == k.table[i].pid && !q.daemon
  {
    hide Inv, Ends, Slay, Withdraw, Bury, GetProcess, SignalBits, NoDup, Remembers;
    var pid, status, parent := k.table[i].pid, 0x100 | SignalBits(SIGKILL), ParentOf(k, i);
    KilledParent(k, i, status);
    var k2 := Notify(Put(k, i, k.table[i].(status := status)), parent, status);
    NotifiedInv(k, i, parent, status);
    EndsWithdraw(k2, i, parent);
    var k3 := Withdraw(k2, i, parent);
    EndsInv(k2, k3, {i});
    EndsEntry(k2, k3, {i}, i);
    var k4 := Slay(k3, i, pid);
    SlayExact(k3, i, pid, i);
    EndSlay(k3, i, pid);
    BuryEntry(k4, i);
    assert KillHandler(k, i) == Bury(k4, i);
  }

  lemma BuryEntry(k: KState, i: Slot)
    requires Inv(k, {i})
    ensures Bury(k, i).table[i] == k.table[i]
  {
    hide Inv, WakeUp, NoDup;
    WaitersSleep(k, {i});
    OffWaiting(k, i);
    WakeUpEntry(k.(zombies := k.zombies + [i]), STATE_CHANGE, i);
  }
}
