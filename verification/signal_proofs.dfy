/** exit and the kernel's signal handlers keep the invariant. */
module SignalProofs {
  import opened Sequences
  import opened ProcessModel
  import opened ProcessInvariant
  import opened WakeupProofs

  /** No job is suspended and the run is not faulted by the operation. */
  ghost predicate Fewer(k: KState, k': KState) {
    && k'.faulted == k.faulted
    && forall j :: j in k'.suspended ==> j in k.suspended
  }

  ghost predicate Ends(k: KState, k': KState, limbo: set<Slot>) {
    Sound(k, k', limbo) && Fewer(k, k')
  }

  lemma EndsThen(a: KState, b: KState, c: KState, limboB: set<Slot>, limboC: set<Slot>)
    requires Ends(a, b, limboB) && Ends(b, c, limboC)
    ensures Ends(a, c, limboC)
  {
    hide Sound;
    SoundThen(a, b, c, limboB, limboC);
  }

  lemma EndsSelf(k: KState, limbo: set<Slot>)
    requires Inv(k, limbo)
    ensures Ends(k, k, limbo)
  {
    hide Inv, Sound;
    SoundSelf(k, limbo);
  }

  lemma EndsInv(k: KState, k': KState, limbo: set<Slot>)
    requires Ends(k, k', limbo)
    ensures Inv(k', limbo)
  {
    hide Inv;
  }

  lemma EndsEntry(k: KState, k': KState, limbo: set<Slot>, i: Slot)
    requires Ends(k, k', limbo)
    ensures EntryFollows(k.table[i], k'.table[i])
    ensures i in k'.suspended ==> i in k.suspended
    ensures k'.faulted == k.faulted
  {
    hide Inv, NoRevival;
  }

  lemma CalmEnds(k: KState, k': KState, limbo: set<Slot>)
    requires Calm(k, k', limbo)
    ensures Ends(k, k', limbo)
  {
    hide Sound;
  }

  /** An off-queue slot may be taken into limbo. */
  lemma InvWeaken(k: KState, j: Slot, limbo: set<Slot>)
    requires Inv(k, limbo) && j !in k.ready && j !in k.waiting && j !in k.zombies
    ensures Inv(k, limbo + {j})
  {
    hide NoDup, Data, InOrder;
  }

  /** The foreground pointer is outside the invariant. */
  lemma EndsForeground(k: KState, f: Link, limbo: set<Slot>)
    requires Inv(k, limbo)
    ensures Ends(k, k.(foreground := f), limbo)
  {
    hide Holds, Pids, Reaped, Running1, SignalSets, Jobs, InOrder;
  }

  lemma EndsYield(k: KState, i: Slot, parent: Link, limbo: set<Slot>)
    requires Inv(k, limbo)
    ensures Ends(k, YieldForeground(k, i, parent), limbo)
    ensures YieldForeground(k, i, parent).table == k.table
  {
    hide Inv, Ends;
    EndsSelf(k, limbo);
    EndsForeground(k, if parent != NIL && !k.table[parent].daemon then parent else NIL, limbo);
  }

  lemma EndsNotify(k: KState, parent: Link, status: bv32, limbo: set<Slot>)
    requires Inv(k, limbo)
    ensures Calm(k, Notify(k, parent, status), limbo)
  {
    if parent != NIL && k.table[parent].state != Killed {
      EntrySound(k, parent);
      hide Inv, Calm;
      var p := k.table[parent];
      CalmPut(k, parent, p.(signals := p.signals + {SIGCHLD}, status := status), limbo);
    } else {
      hide Inv, Calm;
      CalmSelf(k, limbo);
    }
  }

  // ----- exit

  /** A stopped job is on the suspended list and nowhere else. */
  lemma StoppedJob(k: KState, j: Slot, limbo: set<Slot>)
    requires Inv(k, limbo) && j !in limbo && k.table[j].state == Stopped
    ensures j != 0 && j in k.suspended && j !in k.ready && j !in k.waiting && j !in k.zombies
    ensures k.table[j].pid != 0 && Exclusive(k.table[j].signals)
  {
    hide NoDup, InOrder, Jobs, Reaped;
  }

  lemma EndsJob(k: KState, j: Slot, limbo: set<Slot>)
    requires Inv(k, limbo) && j !in limbo && k.table[j].state == Stopped
    requires forall i :: i in limbo ==> !Alive(k.table[i])
    ensures Ends(k, EndJob(k, j), limbo)
  {
    hide Inv, Calm, Ends, Without, KillGroupFrom;
    StoppedJob(k, j, limbo);
    InvWeaken(k, j, limbo);
    var limbo' := limbo + {j};
    var q := k.table[j].(state := Killed, event := k.table[j].pid);
    var k1 := Put(k, j, q);
    EndsPut(k, j, q, limbo');
    EndsInv(k, k1, limbo');
    assert Spared(k1, q.pid, limbo');
    CalmKillGroupFrom(k1, q.pid, SIGTERM, 2, limbo');
    var k2 := KillGroup(k1, q.pid, SIGTERM);
    CalmEnds(k1, k2, limbo');
    EndsThen(k, k1, k2, limbo', limbo');
    CalmQueues(k1, k2, limbo');
    CalmInv(k1, k2, limbo');
    CalmEntry(k1, k2, j, limbo');
    EndsBury(k2, j, limbo);
    EndsThen(k, k2, EndJob(k, j), limbo', limbo);
  }

  lemma EndsPut(k: KState, i: Slot, q: Process, limbo: set<Slot>)
    requires Inv(k, limbo) && Keeps(k.table[i], q) && q.arrival == k.table[i].arrival
    requires q.state == k.table[i].state || (i in limbo && Down(q.state))
    ensures Ends(k, Put(k, i, q), limbo)
  {
    hide Inv, Follows, NoRevival;
    InvPut(k, i, q, limbo);
  }

  lemma CalmQueues(k: KState, k': KState, limbo: set<Slot>)
    requires Calm(k, k', limbo)
    ensures k'.suspended == k.suspended && k'.zombies == k.zombies && k'.faulted == k.faulted
  {
    hide Inv, Sound;
  }

  lemma InLimbo(k: KState, j: Slot, limbo: set<Slot>)
    requires Inv(k, limbo) && j in limbo
    ensures j !in k.ready && j !in k.waiting && j !in k.zombies
  {
    hide Holds, Data, InOrder;
  }

  /** A dead process moves from the suspended list to the zombies. */
  lemma EndsBury(k: KState, j: Slot, limbo: set<Slot>)
    requires Inv(k, limbo + {j}) && j !in limbo && j != 0 && k.table[j].state == Killed && j in k.suspended
    ensures Ends(k, k.(suspended := Without(k.suspended, j), zombies := k.zombies + [j]), limbo)
  {
    hide Inv, Follows, NoRevival;
    InLimbo(k, j, limbo + {j});
    LeaveSuspended(k, j, limbo + {j});
    assert limbo + {j} + {j} == limbo + {j};
    var k1 := k.(suspended := Without(k.suspended, j));
    JoinZombies(k1, j, limbo + {j});
    assert limbo + {j} - {j} == limbo;
    var k2 := k1.(zombies := k1.zombies + [j]);
    SoundThen(k, k1, k2, limbo + {j}, limbo);
    hide Sound;
  }

  lemma {:induction false} EndsJobs(k: KState, pid: int, jobs: seq<Slot>, limbo: set<Slot>)
    requires Inv(k, limbo) && forall i :: i in limbo ==> !Alive(k.table[i])
    ensures Ends(k, EndJobs(k, pid, jobs), limbo)
    decreases |jobs|
  {
    hide Inv, Ends, EndJob;
    if jobs == [] {
      EndsSelf(k, limbo);
    } else {
      var j := jobs[0];
      if k.table[j].ppid == pid && k.table[j].state == Stopped {
        var k1 := EndJob(k, j);
        EndsJob(k, j, limbo);
        EndsInv(k, k1, limbo);
        forall i | i in limbo
          ensures !Alive(k1.table[i])
        {
          EndsEntry(k, k1, limbo, i);
        }
        EndsJobs(k1, pid, jobs[1..], limbo);
        EndsThen(k, k1, EndJobs(k1, pid, jobs[1..]), limbo, limbo);
      } else {
        EndsJobs(k, pid, jobs[1..], limbo);
      }
    }
  }

  lemma EndsGiveWay(k: KState, i: Slot, parent: Link, limbo: set<Slot>)
    requires Inv(k, limbo)
    ensures Ends(k, GiveWay(k, i, parent), limbo)
  {
    hide Inv, Ends, Calm, WakeUp, YieldForeground;
    var k1 := YieldForeground(k, i, parent);
    EndsYield(k, i, parent, limbo);
    if !k1.table[i].daemon {
      EndsInv(k, k1, limbo);
      CalmWakeUp(k1, FG_PAUSED, limbo);
      CalmEnds(k1, WakeUp(k1, FG_PAUSED), limbo);
      EndsThen(k, k1, WakeUp(k1, FG_PAUSED), limbo, limbo);
    }
  }

  lemma EndsMarkDead(k: KState, i: Slot, status: bv32)
    requires Inv(k, {i}) && i != 0 && Alive(k.table[i]) && k.table[i].state != Init
    ensures Ends(k, MarkDead(k, i, status), {i}) && MarkDead(k, i, status).table[i].state == Killed
  {
    EntrySound(k, i);
    hide Inv, Ends;
    EndsPut(k, i, k.table[i].(status := status, state := Killed, event := k.table[i].pid), {i});
  }

  lemma EndsAnnounce(k: KState, i: Slot, parent: Link, limbo: set<Slot>)
    requires Inv(k, limbo)
    ensures Ends(k, Announce(k, i, parent), limbo)
  {
    hide Inv, Ends, Calm;
    EndsNotify(k, parent, k.table[i].status, limbo);
    CalmAdopt(k, i, limbo);
    CalmEnds(k, Announce(k, i, parent), limbo);
  }

  /** What remains to be done for a dead process in limbo: its place among the zombies. */
  lemma EndsBurial(k: KState, i: Slot)
    requires Inv(k, {i}) && i != 0 && k.table[i].state == Killed && i !in k.suspended
    ensures Ends(k, Bury(k, i), {}) && Bury(k, i).table[i].state == Killed
  {
    hide Inv, Follows, NoRevival, WakeUp, Calm;
    var k1 := k.(zombies := k.zombies + [i]);
    JoinZombies(k, i, {i});
    assert {i} - {i} == {};
    CalmWakeUp(k1, STATE_CHANGE, {});
    CalmEnds(k1, WakeUp(k1, STATE_CHANGE), {});
    EndsThen(k, k1, WakeUp(k1, STATE_CHANGE), {}, {});
    EndsEntry(k1, WakeUp(k1, STATE_CHANGE), {}, i);
  }

  lemma EndsExit(k: KState, i: Slot, status: bv32)
    requires Inv(k, {i}) && i != 0 && Alive(k.table[i]) && k.table[i].state != Init && i !in k.suspended
    ensures Ends(k, Exit(k, i, status), {}) && Exit(k, i, status).table[i].state == Killed
  {
    hide Inv, Ends, Calm, GiveWay, EndJobs, SwitchParent, Bury, Announce, MarkDead;
    var pid := k.table[i].pid;
    var k1 := MarkDead(k, i, status);
    EndsMarkDead(k, i, status);
    EndsInv(k, k1, {i});
    var parent := ParentOf(k1, i);
    var k2 := Announce(k1, i, parent);
    EndsAnnounce(k1, i, parent, {i});
    EndsThen(k, k1, k2, {i}, {i});
    EndsInv(k, k2, {i});
    EndsEntry(k1, k2, {i}, i);
    var k3 := EndJobs(k2, pid, k2.suspended);
    EndsJobs(k2, pid, k2.suspended, {i});
    EndsThen(k, k2, k3, {i}, {i});
    EndsInv(k, k3, {i});
    EndsEntry(k2, k3, {i}, i);
    EndsFarewell(k3, i, parent, pid);
    var k5 := GiveWay(SwitchParent(k3, pid, 1, true), i, parent);
    EndsThen(k, k3, k5, {i}, {i});
    EndsInv(k, k5, {i});
    EndsEntry(k3, k5, {i}, i);
    EndsEntry(k, k5, {i}, i);
    EndsBurial(k5, i);
    EndsThen(k, k5, Exit(k, i, status), {i}, {});
  }

  lemma EndsFarewell(k: KState, i: Slot, parent: Link, pid: int)
    requires Inv(k, {i})
    ensures Ends(k, GiveWay(SwitchParent(k, pid, 1, true), i, parent), {i})
  {
    hide Inv, Ends, Calm, GiveWay, SwitchParent;
    var k1 := SwitchParent(k, pid, 1, true);
    CalmSwitchParent(k, pid, true, {i});
    CalmEnds(k, k1, {i});
    EndsInv(k, k1, {i});
    EndsGiveWay(k1, i, parent, {i});
    EndsThen(k, k1, GiveWay(k1, i, parent), {i}, {i});
  }
}
