/** The kernel's handlers of the signals that end or stop a process keep the invariant. */
module HandlerProofs {
  import opened Sequences
  import opened ProcessModel
  import opened ProcessInvariant
  import opened WakeupProofs
  import opened SignalProofs

  /** An ordinary process that is not running: on exactly one queue. */
  predicate Parked(p: Process) {
    p.state == Ready || p.state == Asleep || p.state == Stopped
  }

  lemma ParkedSlot(k: KState, i: Slot)
    requires Inv(k, {}) && i != 0 && Parked(k.table[i])
    ensures k.table[i].state == Ready ==> i in k.ready && i !in k.waiting && i !in k.suspended
    ensures k.table[i].state == Asleep ==> i in k.waiting && i !in k.ready && i !in k.suspended
    ensures k.table[i].state == Stopped ==> i in k.suspended && i !in k.ready && i !in k.waiting
    ensures i !in k.zombies && k.table[i].pid != 0 && Exclusive(k.table[i].signals)
  {
    EntrySound(k, i);
    hide NoDup, InOrder, Data;
  }

  lemma SlotSound(k: KState, i: Slot, limbo: set<Slot>)
    requires Inv(k, limbo)
    ensures Exclusive(k.table[i].signals)
    ensures i != 0 && Occupied(k.table[i]) ==> k.table[i].pid != 0
  {
    EntrySound(k, i);
  }

  lemma EndsLeaveActive(k: KState, i: Slot)
    requires Inv(k, {}) && i != 0 && (k.table[i].state == Ready || k.table[i].state == Asleep)
    ensures Ends(k, LeaveActive(k, i), {i}) && LeaveActive(k, i).table == k.table
    ensures i !in LeaveActive(k, i).suspended
  {
    ParkedSlot(k, i);
    hide Inv, Follows, NoRevival, Without;
    assert {} + {i} == {i};
    if i in k.ready {
      LeaveReady(k, i, {});
    } else {
      LeaveWaiting(k, i, {});
    }
  }

  lemma EndsTerminate(k: KState, i: Slot, sig: Signal)
    requires Inv(k, {}) && i != 0 && (k.table[i].state == Ready || k.table[i].state == Asleep)
    ensures Ends(k, Terminate(k, i, sig), {}) && Terminate(k, i, sig).table[i].state == Killed
  {
    hide Inv, Ends, LeaveActive, Exit;
    var k1 := LeaveActive(k, i);
    EndsLeaveActive(k, i);
    EndsInv(k, k1, {i});
    EndsExit(k1, i, 0x100 | (sig as bv32));
    EndsThen(k, k1, Terminate(k, i, sig), {i}, {});
  }

  // ----- SIGKILL

  lemma EndsWithdraw(k: KState, i: Slot, parent: Link)
    requires Inv(k, {}) && i != 0 && Parked(k.table[i])
    ensures Ends(k, Withdraw(k, i, parent), {i}) && i !in Withdraw(k, i, parent).suspended
  {
    ParkedSlot(k, i);
    hide Inv, Ends, LeaveActive, GiveWay, Without;
    if k.table[i].state == Stopped {
      EndsUnsuspend(k, i);
    } else {
      var k1 := LeaveActive(k, i);
      EndsLeaveActive(k, i);
      EndsInv(k, k1, {i});
      EndsGiveWay(k1, i, parent, {i});
      EndsThen(k, k1, GiveWay(k1, i, parent), {i}, {i});
      EndsEntry(k1, GiveWay(k1, i, parent), {i}, i);
    }
  }

  lemma EndsUnsuspend(k: KState, i: Slot)
    requires Inv(k, {}) && i in k.suspended && i !in k.ready && i !in k.waiting && i !in k.zombies
    ensures var k' := k.(suspended := Without(k.suspended, i));
      Ends(k, k', {i}) && i !in k'.suspended
  {
    hide Inv, Follows, NoRevival;
    assert {} + {i} == {i};
    LeaveSuspended(k, i, {});
  }

  lemma EndsSlay(k: KState, i: Slot, pid: int)
    requires Inv(k, {i}) && i != 0 && k.table[i].pid == pid && Occupied(k.table[i]) && k.table[i].state != Init
    ensures Ends(k, Slay(k, i, pid), {i}) && Slay(k, i, pid).table[i].state == Killed
  {
    hide Inv, Ends, Calm, SwitchParent, KillGroupFrom;
    var k4 := SwitchParent(k, pid, 1, false);
    CalmSwitchParent(k, pid, false, {i});
    CalmInv(k, k4, {i});
    CalmEntry(k, k4, i, {i});
    var k5 := KillGroup(k4, pid, SIGKILL);
    CalmKillGroupFrom(k4, pid, SIGKILL, 2, {i});
    CalmThen(k, k4, k5, {i});
    CalmInv(k, k5, {i});
    CalmEntry(k, k5, i, {i});
    CalmEnds(k, k5, {i});
    SlotSound(k5, i, {i});
    var q := k5.table[i].(state := Killed, event := pid, daemon := false);
    EndsPut(k5, i, q, {i});
    EndsThen(k, k5, Put(k5, i, q), {i}, {i});
  }

  lemma EndsKillHandler(k: KState, i: Slot)
    requires Inv(k, {}) && i != 0 && Parked(k.table[i])
    ensures Ends(k, KillHandler(k, i), {})
    ensures k.table[i].pid > 1 ==> KillHandler(k, i).table[i].state == Killed
  {
    hide Inv, Ends, Calm, Slay, Withdraw, Bury, Notify;
    var pid := k.table[i].pid;
    if pid == 0 || pid == 1 {
      EndsSelf(k, {});
    } else {
      var status := 0x100 | SignalBits(SIGKILL);
      SlotSound(k, i, {});
      var q := k.table[i].(status := status);
      var k1 := Put(k, i, q);
      CalmPut(k, i, q, {});
      CalmInv(k, k1, {});
      var parent := ParentOf(k1, i);
      EndsNotify(k1, parent, status, {});
      var k2 := Notify(k1, parent, status);
      CalmThen(k, k1, k2, {});
      CalmInv(k, k2, {});
      CalmEnds(k, k2, {});
      ParkedStays(k, k2, i);
      EndsSlain(k2, i, parent, pid);
      EndsThen(k, k2, Bury(Slay(Withdraw(k2, i, parent), i, pid), i), {}, {});
    }
  }

  lemma ParkedStays(k: KState, k': KState, i: Slot)
    requires Calm(k, k', {}) && Parked(k.table[i])
    ensures Parked(k'.table[i]) && k'.table[i].pid == k.table[i].pid
  {
    hide Inv, NoRevival;
    assert EntryFollows(k.table[i], k'.table[i]) && EntryQuiet(k.table[i], k'.table[i]);
  }

  lemma EndsSlain(k: KState, i: Slot, parent: Link, pid: int)
    requires Inv(k, {}) && i != 0 && Parked(k.table[i]) && k.table[i].pid == pid
    ensures var k' := Bury(Slay(Withdraw(k, i, parent), i, pid), i);
      Ends(k, k', {}) && k'.table[i].state == Killed
  {
    hide Inv, Ends, Slay, Withdraw, Bury;
    var k1 := Withdraw(k, i, parent);
    EndsWithdraw(k, i, parent);
    EndsInv(k, k1, {i});
    EndsEntry(k, k1, {i}, i);
    var k2 := Slay(k1, i, pid);
    EndsSlay(k1, i, pid);
    EndsThen(k, k1, k2, {i}, {i});
    EndsInv(k, k2, {i});
    EndsEntry(k1, k2, {i}, i);
    EndsBurial(k2, i);
    EndsThen(k, k2, Bury(k2, i), {i}, {});
  }

  // ----- SIGSTOP and SIGTSTP

  lemma CalmReportStop(k: KState, i: Slot, parent: Link, limbo: set<Slot>)
    requires Inv(k, limbo) && i != 0 && Occupied(k.table[i]) && parent == ParentOf(k, i)
    ensures Calm(k, ReportStop(k, i, parent), limbo)
  {
    hide Inv, Calm, NewJob;
    if parent != NIL && k.table[parent].state != Killed {
      var n := Notify(k, parent, k.table[i].status);
      EndsNotify(k, parent, k.table[i].status, limbo);
      CalmInv(k, n, limbo);
      SlotSound(n, parent, limbo);
      var q := n.table[parent].(wpid := n.table[i].pid);
      CalmPut(n, parent, q, limbo);
      var w := Put(n, parent, q);
      CalmThen(k, n, w, limbo);
      if w.table[i].jobSpec == 0 {
        CalmInv(k, w, limbo);
        CalmNewJob(w, parent, i, limbo);
        CalmThen(k, w, NewJob(w, parent, i), limbo);
      }
    } else {
      CalmSelf(k, limbo);
    }
  }

  /** The end of a stop differs from Ends in that the suspended list grows. */
  lemma SoundSuspend(k: KState, i: Slot)
    requires Inv(k, {i}) && i != 0 && Alive(k.table[i]) && k.table[i].state != Init && i !in k.suspended
    ensures Sound(k, Suspend(k, i), {}) && Suspend(k, i).faulted == k.faulted
    ensures Suspend(k, i).table[i].state == Stopped
  {
    SlotSound(k, i, {i});
    hide Inv, Follows, NoRevival, Calm, WakeUp;
    var q := k.table[i].(state := Stopped);
    InvPut(k, i, q, {i});
    var k1 := Put(k, i, q);
    JoinSuspended(k1, i, {i});
    assert {i} - {i} == {};
    var k2 := k1.(suspended := k1.suspended + [i]);
    SoundThen(k, k1, k2, {i}, {});
    CalmWakeUp(k2, STATE_CHANGE, {});
    var k3 := WakeUp(k2, STATE_CHANGE);
    CalmEntry(k2, k3, i, {});
    CalmQueues(k2, k3, {});
    CalmSound(k2, k3, {});
    hide Sound;
    SoundThen(k, k2, k3, {}, {});
  }

  lemma CalmSound(k: KState, k': KState, limbo: set<Slot>)
    requires Calm(k, k', limbo)
    ensures Sound(k, k', limbo)
  {
    hide Sound;
  }

  lemma EndsSound(k: KState, k': KState, limbo: set<Slot>)
    requires Ends(k, k', limbo)
    ensures Sound(k, k', limbo) && k'.faulted == k.faulted
  {
    hide Sound;
  }

  lemma SoundStop(k: KState, i: Slot)
    requires Inv(k, {}) && i != 0 && Parked(k.table[i])
    ensures Sound(k, StopHandler(k, i), {}) && StopHandler(k, i).faulted == k.faulted
    ensures k.table[i].pid > 1 ==> StopHandler(k, i).table[i].state == Stopped
    ensures k.table[i].pid <= 1 ==> StopHandler(k, i) == k
  {
    hide Inv, Sound, Ends, Calm, LeaveActive, ReportStop, GiveWay, Suspend;
    ParkedSlot(k, i);
    PidPositive(k, i);
    if k.table[i].pid <= 1 || k.table[i].state == Stopped {
      SoundSelf(k, {});
    } else {
      var k1 := LeaveActive(k, i);
      EndsLeaveActive(k, i);
      EndsInv(k, k1, {i});
      var q := k1.table[i].(status := StoppedStatus(k1.table[i].status));
      var k2 := Put(k1, i, q);
      CalmPut(k1, i, q, {i});
      CalmInv(k1, k2, {i});
      var parent := ParentOf(k2, i);
      var k3 := ReportStop(k2, i, parent);
      CalmReportStop(k2, i, parent, {i});
      CalmThen(k1, k2, k3, {i});
      CalmEnds(k1, k3, {i});
      CalmEntry(k1, k3, i, {i});
      EndsThen(k, k1, k3, {i}, {i});
      StopTail(k, k3, i, parent);
    }
  }

  lemma PidPositive(k: KState, i: Slot)
    requires Inv(k, {}) && i != 0 && Occupied(k.table[i])
    ensures 1 <= k.table[i].pid
  {
    EntrySound(k, i);
  }

  lemma StopTail(k: KState, k3: KState, i: Slot, parent: Link)
    requires Inv(k, {}) && Ends(k, k3, {i}) && i != 0 && i !in k.suspended
    requires Alive(k3.table[i]) && k3.table[i].state != Init
    requires k3.table[i].state == Ready || k3.table[i].state == Asleep
    ensures var k' := Suspend(GiveWay(k3, i, parent), i);
      Sound(k, k', {}) && k'.faulted == k.faulted && k'.table[i].state == Stopped
  {
    hide Inv, Ends, Calm, Sound, GiveWay, Suspend;
    EndsInv(k, k3, {i});
    var k4 := GiveWay(k3, i, parent);
    EndsGiveWay(k3, i, parent, {i});
    GiveWayKeeps(k3, i, parent, {i});
    EndsThen(k, k3, k4, {i}, {i});
    EndsInv(k, k4, {i});
    EndsEntry(k, k4, {i}, i);
    SoundSuspend(k4, i);
    EndsSound(k, k4, {i});
    SoundThen(k, k4, Suspend(k4, i), {i}, {});
  }

  lemma GiveWayKeeps(k: KState, i: Slot, parent: Link, limbo: set<Slot>)
    requires Inv(k, limbo) && (k.table[i].state == Ready || k.table[i].state == Asleep)
    ensures var s := GiveWay(k, i, parent).table[i].state; s == Ready || s == Asleep
  {
    hide Inv, Calm, WakeUp, YieldForeground, Ends;
    var k1 := YieldForeground(k, i, parent);
    EndsYield(k, i, parent, limbo);
    if !k1.table[i].daemon {
      EndsInv(k, k1, limbo);
      CalmWakeUp(k1, FG_PAUSED, limbo);
      CalmEntry(k1, WakeUp(k1, FG_PAUSED), i, limbo);
    }
  }
}
