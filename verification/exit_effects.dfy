/** What exit does to the process, its parent, its children, the foreground and the waiting. */
module ExitEffects {
  import opened Sequences
  import opened ProcessModel
  import opened ProcessInvariant
  import opened WakeupProofs
  import opened SignalProofs
  import opened ProcessEffects

  // ----- what the later parts of exit keep

  predicate Lasting(p: Process, q: Process) {
    && q.pid == p.pid && q.status == p.status && q.daemon == p.daemon && p.signals <= q.signals
    && (Occupied(q) <==> Occupied(p))
    && (p.state == Killed ==> q.state == Killed && q.event == p.event)
    && (q.state == Killed ==> p.state == Killed || p.state == Stopped) && (q.state == Stopped ==> p.state == Stopped)
    && (p.state == Ready ==> q.state == Ready && q.event == p.event)
  }

  /** Asleep until a child changes state, or ready already. */
  predicate Watchful(k: KState, j: Slot) {
    (j in k.waiting && k.table[j].event == STATE_CHANGE) || (k.table[j].state == Ready && j !in k.waiting)
  }

  ghost predicate Stage(k: KState, k': KState) {
    && (forall j: Slot :: Lasting(k.table[j], k'.table[j]))
    && (forall j: Slot :: Watchful(k, j) ==> Watchful(k', j))
  }

  ghost predicate SameParents(k: KState, k': KState) {
    forall j: Slot :: k'.table[j].ppid == k.table[j].ppid
  }

  lemma StageThen(a: KState, b: KState, c: KState)
    requires Stage(a, b) && Stage(b, c)
    ensures Stage(a, c)
  {
    hide Watchful;
    forall j: Slot
      ensures Lasting(a.table[j], c.table[j])
    {
      assert Lasting(a.table[j], b.table[j]) && Lasting(b.table[j], c.table[j]);
    }
  }

  lemma StageSelf(k: KState)
    ensures Stage(k, k)
  {
  }

  // ----- stopped jobs

  /** The stopped jobs of a process among `jobs`, in order. */
  function StoppedJobs(t: Table, pid: int, jobs: seq<Slot>): seq<Slot> {
    if jobs == [] then []
    else if t[jobs[0]].ppid == pid && t[jobs[0]].state == Stopped then [jobs[0]] + StoppedJobs(t, pid, jobs[1..])
    else StoppedJobs(t, pid, jobs[1..])
  }

  lemma LimboListed(k: KState, sender: int, limbo: set<Slot>)
    requires Inv(k, limbo) && forall i :: i in limbo ==> !Alive(k.table[i]) || k.table[i].pid == sender
    ensures SleepersListed(k, sender, false, 2)
  {
    hide NoDup, InOrder, Data;
  }

  lemma EndJobSpread(k: KState, j: Slot, limbo: set<Slot>)
    requires Inv(k, limbo) && j !in limbo && k.table[j].state == Stopped
    requires forall i :: i in limbo ==> !Alive(k.table[i])
    ensures var k1 := Put(k, j, k.table[j].(state := Killed, event := k.table[j].pid));
      && Spread(k1, KillGroup(k1, k.table[j].pid, SIGTERM), k.table[j].pid, false, SIGTERM, 2)
      && (forall i :: i in k1.waiting ==> k1.table[i].state == Asleep) && j !in k1.waiting
  {
    hide Inv, SleepersListed, KillGroupFrom, Spread;
    StoppedJob(k, j, limbo);
    InvWeaken(k, j, limbo);
    var pid := k.table[j].pid;
    var k1 := Put(k, j, k.table[j].(state := Killed, event := pid));
    KilledInv(k, j, limbo);
    assert forall i :: i in limbo ==> !Alive(k1.table[i]);
    LimboListed(k1, pid, limbo + {j});
    KillGroupExact(k1, pid, SIGTERM, 2);
    WaitersSleep(k1, limbo + {j});
  }

  /** Ending one stopped job: it is dead and its children are told to end. */
  lemma EndJobExact(k: KState, j: Slot, limbo: set<Slot>)
    requires Inv(k, limbo) && j !in limbo && k.table[j].state == Stopped
    requires forall i :: i in limbo ==> !Alive(k.table[i])
    ensures var k' := EndJob(k, j);
      && Stage(k, k') && SameParents(k, k') && k'.foreground == k.foreground
      && k'.table[j].state == Killed && k'.table[j].event == k.table[j].pid && k'.zombies == k.zombies + [j]
      && (forall i: Slot :: i != j ==> (k'.table[i].state == Stopped <==> k.table[i].state == Stopped))
      && (forall i: Slot :: i != j ==> (k'.table[i].state == Killed <==> k.table[i].state == Killed))
  {
    hide Inv, KillGroupFrom, Spread, Stage, SameParents, Without;
    EndJobSpread(k, j, limbo);
    var k1 := Put(k, j, k.table[j].(state := Killed, event := k.table[j].pid));
    var k2 := KillGroup(k1, k.table[j].pid, SIGTERM);
    SpreadStage(k1, k2, k.table[j].pid);
    EndStage(k, k1, k2, j);
  }

  lemma KilledInv(k: KState, j: Slot, limbo: set<Slot>)
    requires Inv(k, limbo + {j}) && k.table[j].state == Stopped && k.table[j].pid != 0 && Exclusive(k.table[j].signals)
    ensures Inv(Put(k, j, k.table[j].(state := Killed, event := k.table[j].pid)), limbo + {j})
  {
    hide Inv, Follows, NoRevival;
    InvPut(k, j, k.table[j].(state := Killed, event := k.table[j].pid), limbo + {j});
  }

  lemma SpreadStage(k: KState, k': KState, sender: int)
    requires Spread(k, k', sender, false, SIGTERM, 2) && forall j :: j in k.waiting ==> k.table[j].state == Asleep
    ensures Stage(k, k') && SameParents(k, k') && k'.foreground == k.foreground
    ensures k'.zombies == k.zombies && k'.suspended == k.suspended
    ensures forall i: Slot :: (k'.table[i].state == Stopped <==> k.table[i].state == Stopped)
    ensures forall i: Slot :: (k'.table[i].state == Killed <==> k.table[i].state == Killed)
    ensures forall i: Slot :: k.table[i].state == Killed ==> k'.table[i].event == k.table[i].event
  {
    hide HitSleepers;
    forall i: Slot
      ensures HitEntry(k.table[i], k'.table[i], SIGTERM) || k'.table[i] == k.table[i]
      ensures Watchful(k, i) ==> Watchful(k', i)
    {
      assert i < 2 || !Hit(k.table[i], sender, false) ==> k'.table[i] == k.table[i];
    }
  }

  lemma EndStage(k: KState, k1: KState, k2: KState, j: Slot)
    requires k.table[j].state == Stopped && j !in k.waiting
    requires k1 == Put(k, j, k.table[j].(state := Killed, event := k.table[j].pid))
    requires Stage(k1, k2) && SameParents(k1, k2)
    ensures var k' := k2.(suspended := Without(k2.suspended, j), zombies := k2.zombies + [j]);
      Stage(k, k') && SameParents(k, k')
  {
    hide Without;
    forall i: Slot
      ensures Lasting(k.table[i], k2.table[i])
      ensures Watchful(k, i) ==> Watchful(k2, i)
    {
      assert Lasting(k1.table[i], k2.table[i]);
      assert Watchful(k, i) ==> Watchful(k1, i);
    }
  }

  lemma {:induction false} StoppedJobsFrame(t: Table, t': Table, pid: int, jobs: seq<Slot>)
    requires forall i :: i in jobs ==> t'[i].ppid == t[i].ppid && (t'[i].state == Stopped <==> t[i].state == Stopped)
    ensures StoppedJobs(t', pid, jobs) == StoppedJobs(t, pid, jobs)
  {
    if jobs != [] {
      StoppedJobsFrame(t, t', pid, jobs[1..]);
    }
  }

  /** Ending the jobs of a dying process: all of its stopped children die, in order. */
  lemma {:induction false} EndJobsExact(k: KState, pid: int, jobs: seq<Slot>, limbo: set<Slot>)
    requires Inv(k, limbo) && NoDup(jobs) && forall i :: i in limbo ==> !Alive(k.table[i])
    ensures var k' := EndJobs(k, pid, jobs);
      && Stage(k, k') && SameParents(k, k') && k'.foreground == k.foreground
      && k'.zombies == k.zombies + StoppedJobs(k.table, pid, jobs)
      && (forall j :: j in jobs && k.table[j].ppid == pid && k.table[j].state == Stopped ==>
            k'.table[j].state == Killed)
      && (forall j: Slot :: !(j in jobs && k.table[j].ppid == pid && k.table[j].state == Stopped) ==>
            (k'.table[j].state == Killed <==> k.table[j].state == Killed))
    decreases |jobs|
  {
    hide Inv, Stage, SameParents, EndJob, Ends;
    if jobs == [] {
      StageSelf(k);
      SameParentsSelf(k);
      assert k.zombies + [] == k.zombies;
    } else {
      var j := jobs[0];
      NoDupTail(jobs);
      if k.table[j].ppid == pid && k.table[j].state == Stopped {
        var k1 := EndJob(k, j);
        LimboApart(k, j, limbo);
        EndJobExact(k, j, limbo);
        EndsJob(k, j, limbo);
        EndsInv(k, k1, limbo);
        StageDead(k, k1, limbo);
        SameParentsAll(k, k1);
        EndJobsExact(k1, pid, jobs[1..], limbo);
        var k' := EndJobs(k1, pid, jobs[1..]);
        StageThen(k, k1, k');
        SameParentsThen(k, k1, k');
        StoppedJobsFrame(k.table, k1.table, pid, jobs[1..]);
        StageEntry(k1, k', j);
        var rest := StoppedJobs(k.table, pid, jobs[1..]);
        assert k.zombies + [j] + rest == k.zombies + ([j] + rest);
      } else {
        EndJobsExact(k, pid, jobs[1..], limbo);
      }
    }
  }

  lemma NoDupTail(jobs: seq<Slot>)
    requires NoDup(jobs) && jobs != []
    ensures NoDup(jobs[1..]) && jobs[0] !in jobs[1..]
  {
  }

  lemma LimboApart(k: KState, j: Slot, limbo: set<Slot>)
    requires k.table[j].state == Stopped && forall i :: i in limbo ==> !Alive(k.table[i])
    ensures j !in limbo
  {
  }

  lemma StageDead(k: KState, k': KState, limbo: set<Slot>)
    requires Stage(k, k') && forall i :: i in limbo ==> !Alive(k.table[i])
    ensures forall i :: i in limbo ==> !Alive(k'.table[i])
  {
    forall i | i in limbo
      ensures !Alive(k'.table[i])
    {
      assert Lasting(k.table[i], k'.table[i]);
    }
  }

  lemma StageEntry(k: KState, k': KState, j: Slot)
    requires Stage(k, k')
    ensures Lasting(k.table[j], k'.table[j]) && (Watchful(k, j) ==> Watchful(k', j))
  {
  }

  lemma SameParentsSelf(k: KState)
    ensures SameParents(k, k)
  {
  }

  lemma SameParentsAll(k: KState, k': KState)
    requires SameParents(k, k')
    ensures forall j: Slot :: k'.table[j].ppid == k.table[j].ppid
  {
  }

  lemma SameParentsThen(a: KState, b: KState, c: KState)
    requires SameParents(a, b) && SameParents(b, c)
    ensures SameParents(a, c)
  {
  }

  // ----- who dies

  /** The same processes are alive and nobody holds the foreground who did not. */
  ghost predicate SameAlive(k: KState, k': KState) {
    forall j: Slot :: (Alive(k'.table[j]) <==> Alive(k.table[j]))
  }

  lemma CalmAlive(k: KState, k': KState, limbo: set<Slot>)
    requires Calm(k, k', limbo)
    ensures SameAlive(k, k') && k'.foreground == k.foreground
    ensures forall j: Slot :: k'.table[j].pid == k.table[j].pid && k'.table[j].daemon == k.table[j].daemon
  {
    hide Inv, NoRevival;
    forall j: Slot
      ensures Alive(k'.table[j]) <==> Alive(k.table[j])
      ensures k'.table[j].pid == k.table[j].pid && k'.table[j].daemon == k.table[j].daemon
    {
      assert EntryFollows(k.table[j], k'.table[j]) && EntryQuiet(k.table[j], k'.table[j]);
    }
  }

  lemma GiveWayAlive(k: KState, i: Slot, parent: Link, limbo: set<Slot>)
    requires Inv(k, limbo)
    ensures SameAlive(k, GiveWay(k, i, parent))
    ensures GiveWay(k, i, parent).foreground == YieldForeground(k, i, parent).foreground
  {
    hide Inv, Ends, Calm, WakeUp;
    var k1 := YieldForeground(k, i, parent);
    EndsYield(k, i, parent, limbo);
    if !k1.table[i].daemon {
      EndsInv(k, k1, limbo);
      CalmWakeUp(k1, FG_PAUSED, limbo);
      CalmAlive(k1, WakeUp(k1, FG_PAUSED), limbo);
    }
  }

  lemma BuryAlive(k: KState, i: Slot)
    requires Inv(k, {i}) && i != 0 && k.table[i].state == Killed && i !in k.suspended
    ensures SameAlive(k, Bury(k, i)) && Bury(k, i).foreground == k.foreground
  {
    hide Inv, Calm, WakeUp, Follows, NoRevival;
    var k1 := k.(zombies := k.zombies + [i]);
    InLimbo(k, i, {i});
    JoinZombies(k, i, {i});
    assert {i} - {i} == {};
    CalmWakeUp(k1, STATE_CHANGE, {});
    CalmAlive(k1, WakeUp(k1, STATE_CHANGE), {});
  }

  // ----- the rest

  lemma TransferStage(k: KState, k': KState, from: int, to: int, transferJobs: bool)
    requires Transfer(k, k', from, to, transferJobs, 1)
    ensures Stage(k, k') && k'.foreground == k.foreground && k'.zombies == k.zombies
    ensures forall j: Slot :: j != 0 ==>
      k'.table[j].ppid == if Occupied(k.table[j]) && k.table[j].ppid == from then to else k.table[j].ppid
  {
    forall j: Slot
      ensures Lasting(k.table[j], k'.table[j])
      ensures Watchful(k, j) ==> Watchful(k', j)
    {
      assert j >= 1 ==> Adopted(k.table[j], k'.table[j], from, to, transferJobs);
    }
  }

  lemma WakeUpStage(k: KState, event: int)
    requires NoDup(k.waiting) && forall j :: j in k.waiting ==> k.table[j].state == Asleep
    ensures var k' := WakeUp(k, event);
      && Stage(k, k') && SameParents(k, k') && k'.foreground == k.foreground && k'.zombies == k.zombies
      && (event == STATE_CHANGE ==> forall j: Slot :: Watchful(k, j) ==> k'.table[j].state == Ready && j !in k'.waiting)
  {
    hide NoDup, WakeUp, Select;
    WakeUpExact(k, event);
    var k' := WakeUp(k, event);
    StillWaiting(k, event);
    forall j: Slot
      ensures Lasting(k.table[j], k'.table[j]) && k'.table[j].ppid == k.table[j].ppid
      ensures Watchful(k, j) ==> Watchful(k', j)
      ensures event == STATE_CHANGE && Watchful(k, j) ==> k'.table[j].state == Ready && j !in k'.waiting
    {
    }
  }

  lemma StillWaiting(k: KState, event: int)
    ensures forall j :: j in Select(k.table, k.waiting, event, false) <==> j in k.waiting && k.table[j].event != event
  {
    forall j
      ensures j in Select(k.table, k.waiting, event, false) <==> j in k.waiting && k.table[j].event != event
    {
      SelectMembers(k.table, k.waiting, event, false);
    }
  }

  lemma GiveWayStage(k: KState, i: Slot, parent: Link)
    requires NoDup(k.waiting) && forall j :: j in k.waiting ==> k.table[j].state == Asleep
    ensures var k' := GiveWay(k, i, parent);
      && Stage(k, k') && SameParents(k, k') && k'.zombies == k.zombies
      && k'.foreground == YieldForeground(k, i, parent).foreground
  {
    hide WakeUp, Stage, SameParents, NoDup;
    var k1 := YieldForeground(k, i, parent);
    StageForeground(k, k1.foreground);
    WakeUpStage(k1, FG_PAUSED);
    StageThen(k, k1, WakeUp(k1, FG_PAUSED));
    SameParentsThen(k, k1, WakeUp(k1, FG_PAUSED));
  }

  lemma StageForeground(k: KState, f: Link)
    ensures Stage(k, k.(foreground := f)) && SameParents(k, k.(foreground := f))
  {
    forall j: Slot
      ensures Watchful(k, j) ==> Watchful(k.(foreground := f), j)
    {
    }
  }

  /** Whoever is on the wait list is asleep. */
  lemma WaitersSleep(k: KState, limbo: set<Slot>)
    requires Inv(k, limbo)
    ensures NoDup(k.waiting) && forall j :: j in k.waiting ==> k.table[j].state == Asleep
  {
    hide NoDup, Data, InOrder;
  }

  /** The last two parts: the foreground is handed on and the zombie joins the others. */
  lemma FarewellExact(k: KState, i: Slot, parent: Link, pid: int)
    requires Inv(k, {i}) && (pid == 1 ==> GetProcess(k, 1) == NIL || k.table[GetProcess(k, 1)].state == Killed)
    requires i != 0 && k.table[i].state == Killed && i !in k.suspended
    ensures var k' := Bury(GiveWay(SwitchParent(k, pid, 1, true), i, parent), i);
      && Stage(k, k') && k'.zombies == k.zombies + [i]
      && k'.foreground == YieldForeground(k, i, parent).foreground && SameAlive(k, k')
      && (forall j: Slot :: Watchful(k, j) ==> k'.table[j].state == Ready && j !in k'.waiting)
      && var init := GetProcess(k, 1);
         (init != NIL && k.table[init].state != Killed ==>
            forall j: Slot :: j != 0 ==>
              k'.table[j].ppid == if Occupied(k.table[j]) && k.table[j].ppid == pid then 1 else k.table[j].ppid)
  {
    hide Inv, Stage, SameParents, WakeUp, YieldForeground, Ends, Calm, SwitchParentFrom, Transfer;
    var k1 := SwitchParent(k, pid, 1, true);
    var init := GetProcess(k, 1);
    if init != NIL && k.table[init].state != Killed {
      SwitchParentExact(k, init, pid, 1, true, 1);
      TransferStage(k, k1, pid, 1, true);
    } else {
      StageSelf(k);
    }
    CalmSwitchParent(k, pid, true, {i});
    CalmInv(k, k1, {i});
    CalmAlive(k, k1, {i});
    CalmQueues(k, k1, {i});
    CalmEntry(k, k1, i, {i});
    FarewellAlive(k1, i, parent);
    WaitersSleep(k1, {i});
    GiveWayStage(k1, i, parent);
    YieldSame(k, k1, i, parent);
    var k2 := GiveWay(k1, i, parent);
    EndsGiveWay(k1, i, parent, {i});
    EndsInv(k1, k2, {i});
    WaitersSleep(k2, {i});
    var k3 := k2.(zombies := k2.zombies + [i]);
    StageZombies(k2, k3);
    WakeUpStage(k3, STATE_CHANGE);
    var k' := WakeUp(k3, STATE_CHANGE);
    StageThen(k, k1, k2);
    StageThen(k, k2, k3);
    StageThen(k, k3, k');
    SameParentsThen(k1, k2, k3);
    SameParentsThen(k1, k3, k');
    SameParentsAll(k1, k');
    forall j: Slot | Watchful(k, j)
      ensures k'.table[j].state == Ready && j !in k'.waiting
    {
      StageEntry(k, k1, j);
      StageEntry(k1, k2, j);
      StageEntry(k2, k3, j);
    }
  }

  lemma FarewellAlive(k: KState, i: Slot, parent: Link)
    requires Inv(k, {i}) && i != 0 && k.table[i].state == Killed && i !in k.suspended
    ensures SameAlive(k, Bury(GiveWay(k, i, parent), i))
  {
    hide Inv, Ends, GiveWay, Bury;
    EndsGiveWay(k, i, parent, {i});
    var k1 := GiveWay(k, i, parent);
    EndsInv(k, k1, {i});
    EndsEntry(k, k1, {i}, i);
    GiveWayAlive(k, i, parent, {i});
    BuryAlive(k1, i);
  }

  lemma StageZombies(k: KState, k': KState)
    requires k' == k.(zombies := k'.zombies)
    ensures Stage(k, k') && SameParents(k, k')
  {
  }

  lemma YieldSame(k: KState, k1: KState, i: Slot, parent: Link)
    requires Stage(k, k1) && k1.foreground == k.foreground
    ensures YieldForeground(k1, i, parent).foreground == YieldForeground(k, i, parent).foreground
  {
    hide Watchful;
    assert forall j: Slot :: Lasting(k.table[j], k1.table[j]);
  }

  // ----- exit

  lemma {:induction false} FindPidFrame(t: Table, t': Table, pid: int, n: nat)
    requires 1 <= n <= TABLE_SIZE
    requires forall j: Slot :: t'[j].pid == t[j].pid && (Occupied(t'[j]) <==> Occupied(t[j]))
    ensures FindPid(t', pid, n) == FindPid(t, pid, n)
    decreases TABLE_SIZE - n
  {
    if n < TABLE_SIZE && !(Occupied(t[n]) && t[n].pid == pid) {
      FindPidFrame(t, t', pid, n + 1);
    }
  }

  /** A parent that can be told of a child's death. */
  predicate CanBeTold(k: KState, i: Slot, parent: Link) {
    parent != NIL && parent != i && k.table[parent].state != Killed
  }

  /** The first two parts of exit. */
  lemma DeathExact(k: KState, i: Slot, status: bv32)
    requires i != 0 && Alive(k.table[i]) && i !in k.waiting
    ensures var k1 := MarkDead(k, i, status);
      var k2 := Announce(k1, i, ParentOf(k1, i));
      && ParentOf(k1, i) == ParentOf(k, i) && Died(k, k2, i, ParentOf(k, i), status)
      && (forall j: Slot :: j != i && Watchful(k, j) ==> Watchful(k2, j))
  {
    hide Died, Watchful, FindPid;
    var k1 := MarkDead(k, i, status);
    FindPidFrame(k.table, k1.table, k.table[i].ppid, 1);
    DiedAfter(k, i, ParentOf(k, i), status);
    DiedWatchful(k, Announce(k1, i, ParentOf(k, i)), i, ParentOf(k, i), status);
  }

  lemma DiedAfter(k: KState, i: Slot, parent: Link, status: bv32)
    requires Alive(k.table[i])
    ensures Died(k, Announce(MarkDead(k, i, status), i, parent), i, parent, status)
  {
    var k1 := MarkDead(k, i, status);
    assert forall j: Slot :: j != i ==> k1.table[j] == k.table[j];
  }

  lemma DiedWatchful(k: KState, k2: KState, i: Slot, parent: Link, status: bv32)
    requires Died(k, k2, i, parent, status)
    ensures forall j: Slot :: j != i && Watchful(k, j) ==> Watchful(k2, j)
  {
    forall j: Slot | j != i && Watchful(k, j)
      ensures Watchful(k2, j)
    {
      assert k2.table[j].event == k.table[j].event && k2.table[j].state == k.table[j].state;
    }
  }

  lemma OffWaiting(k: KState, i: Slot)
    requires Inv(k, {i})
    ensures i !in k.waiting
  {
    hide Inv;
    InLimbo(k, i, {i});
  }

  lemma SuspendedOnce(k: KState, limbo: set<Slot>)
    requires Inv(k, limbo)
    ensures NoDup(k.suspended)
  {
    hide NoDup, Data, InOrder;
  }

  /** What is known after the first two parts of exit. */
  predicate Died(k: KState, k2: KState, i: Slot, parent: Link, status: bv32) {
    && k2.table[i].state == Killed && k2.table[i].event == k.table[i].pid && k2.table[i].pid == k.table[i].pid
    && k2.table[i].status == status && k2.table[i].daemon == k.table[i].daemon
    && k2 == k.(table := k2.table)
    && (forall j: Slot :: j != i && j != parent ==> k2.table[j] == k.table[j])
    && (if CanBeTold(k, i, parent) then
          && k2.table[parent] == k.table[parent].(signals := k.table[parent].signals + {SIGCHLD}, status := status)
          && k2.table[i].ppid == k.table[i].ppid
        else k2.table[i].ppid == 1 && (forall j: Slot :: j != i ==> k2.table[j] == k.table[j]))
  }

  lemma DyingJobs(k: KState, k2: KState, i: Slot, parent: Link, status: bv32)
    requires Died(k, k2, i, parent, status) && i !in k.suspended
    ensures StoppedJobs(k2.table, k.table[i].pid, k2.suspended) == StoppedJobs(k.table, k.table[i].pid, k.suspended)
  {
    StoppedJobsFrame(k.table, k2.table, k.table[i].pid, k.suspended);
  }

  lemma YieldAfter(k: KState, k2: KState, k3: KState, i: Slot, parent: Link, status: bv32)
    requires Died(k, k2, i, parent, status) && Stage(k2, k3) && k3.foreground == k2.foreground
    ensures YieldForeground(k3, i, parent).foreground == YieldForeground(k, i, parent).foreground
  {
    hide Watchful;
    forall j: Slot
      ensures k3.table[j].pid == k.table[j].pid && k3.table[j].daemon == k.table[j].daemon
    {
      assert Lasting(k2.table[j], k3.table[j]);
    }
  }

  lemma ToldParent(k: KState, k2: KState, k': KState, i: Slot, parent: Link, status: bv32)
    requires Died(k, k2, i, parent, status) && Stage(k2, k') && CanBeTold(k, i, parent)
    ensures SIGCHLD in k'.table[parent].signals && k'.table[parent].status == status
  {
    hide Watchful;
    assert Lasting(k2.table[parent], k'.table[parent]);
  }

  /** Whoever is ready already keeps its event. */
  lemma EventsKept(k: KState, k2: KState, k': KState, i: Slot, parent: Link, status: bv32)
    requires Died(k, k2, i, parent, status) && Stage(k2, k')
    ensures forall j: Slot :: j != i && k.table[j].state == Ready ==> k'.table[j].event == k.table[j].event
  {
    hide Watchful;
    forall j: Slot | j != i && k.table[j].state == Ready
      ensures k'.table[j].event == k.table[j].event
    {
      assert Lasting(k2.table[j], k'.table[j]);
    }
  }

  lemma OrphansGoToInit(k: KState, k2: KState, k3: KState, k': KState, i: Slot, parent: Link, status: bv32)
    requires Died(k, k2, i, parent, status) && Stage(k2, k3) && SameParents(k2, k3)
    requires var init := GetProcess(k3, 1);
      init != NIL && k3.table[init].state != Killed ==>
        forall j: Slot :: j != 0 ==>
          k'.table[j].ppid ==
            if Occupied(k3.table[j]) && k3.table[j].ppid == k.table[i].pid then 1 else k3.table[j].ppid
    requires Alive(k.table[i]) && i != 0
    ensures var init := GetProcess(k, 1);
      init != NIL && init != i && k.table[init].state != Killed && k.table[init].state != Stopped ==>
        && (forall j: Slot :: j != 0 && j != i && Occupied(k.table[j]) && k.table[j].ppid == k.table[i].pid ==>
              k'.table[j].ppid == 1)
        && (!CanBeTold(k, i, parent) ==> k'.table[i].ppid == 1)
  {
    hide Watchful;
    forall j: Slot
      ensures k3.table[j].pid == k.table[j].pid && (Occupied(k3.table[j]) <==> Occupied(k.table[j]))
      ensures j != i ==> k3.table[j].ppid == k.table[j].ppid
      ensures j != i && k3.table[j].state == Killed ==> k.table[j].state == Killed || k.table[j].state == Stopped
    {
      assert Lasting(k2.table[j], k3.table[j]);
    }
    FindPidFrame(k.table, k3.table, 1, 1);
  }

  lemma WatchfulReady(k: KState, k2: KState, k3: KState, k': KState, i: Slot)
    requires forall j: Slot :: j != i && Watchful(k, j) ==> Watchful(k2, j)
    requires Stage(k2, k3)
    requires forall j: Slot :: Watchful(k3, j) ==> k'.table[j].state == Ready && j !in k'.waiting
    ensures forall j: Slot :: j != i && Watchful(k, j) ==> k'.table[j].state == Ready && j !in k'.waiting
  {
    hide Watchful, Lasting;
  }

  /** The PID of init is that of the dying process or of another one. */
  lemma DyingInit(k: KState, i: Slot)
    requires Inv(k, {i}) && i != 0 && k.table[i].state == Killed && k.table[i].pid == 1
    ensures GetProcess(k, 1) == i
  {
    hide Queues, InOrder, Jobs, Reaped, SignalSets, FindPid;
    var r := GetProcess(k, 1);
  }

  lemma Deaths(k: KState, k2: KState, k3: KState, k': KState, i: Slot, parent: Link, status: bv32)
    requires Inv(k, {i}) && i !in k.suspended && Died(k, k2, i, parent, status) && SameAlive(k3, k')
    requires forall j :: j in k2.suspended && k2.table[j].ppid == k.table[i].pid && k2.table[j].state == Stopped ==>
      k3.table[j].state == Killed
    requires forall j: Slot ::
      !(j in k2.suspended && k2.table[j].ppid == k.table[i].pid && k2.table[j].state == Stopped) ==>
        (k3.table[j].state == Killed <==> k2.table[j].state == Killed)
    requires Stage(k2, k3)
    ensures forall j: Slot :: Alive(k'.table[j]) <==>
      j != i && Alive(k.table[j]) && !(k.table[j].state == Stopped && k.table[j].ppid == k.table[i].pid)
  {
    SuspendedIff(k, i);
    hide Inv, Watchful;
    forall j: Slot
      ensures Alive(k'.table[j]) <==>
        j != i && Alive(k.table[j]) && !(k.table[j].state == Stopped && k.table[j].ppid == k.table[i].pid)
    {
      assert Lasting(k2.table[j], k3.table[j]);
      assert k2.table[j].state == (if j == i then Killed else k.table[j].state);
      assert j != i ==> k2.table[j].ppid == k.table[j].ppid;
    }
  }

  lemma SuspendedIff(k: KState, i: Slot)
    requires Inv(k, {i}) && i !in k.suspended
    ensures forall j: Slot :: j != i ==> (j in k.suspended <==> k.table[j].state == Stopped)
  {
    hide NoDup, Pids, Jobs, Reaped, SignalSets, InOrder;
  }

  /** exit of a process that is on no queue. It dies, and of the others exactly its stopped
      children do. Its record is kept for the parent;
      it is the last of the zombies, after its own stopped jobs, which die with it; a living
      parent has SIGCHLD pending and the status, otherwise init is the parent; a living init
      takes over the children; everybody who waits for a child's change of state is ready; and
      the foreground passes to a parent that is no daemon. */
  lemma ExitExact(k: KState, i: Slot, status: bv32)
    requires Inv(k, {i}) && i != 0 && Alive(k.table[i]) && k.table[i].state != Init && i !in k.suspended
    ensures var k' := Exit(k, i, status); var pid := k.table[i].pid; var parent := ParentOf(k, i);
      && k'.table[i].state == Killed && k'.table[i].event == pid && k'.table[i].pid == pid
      && k'.table[i].status == status
      && k'.zombies == k.zombies + StoppedJobs(k.table, pid, k.suspended) + [i]
      && (CanBeTold(k, i, parent) ==> SIGCHLD in k'.table[parent].signals && k'.table[parent].status == status)
      && (forall j: Slot :: j != i && Watchful(k, j) ==> k'.table[j].state == Ready && j !in k'.waiting)
      && (forall j: Slot :: j != i && k.table[j].state == Ready ==> k'.table[j].event == k.table[j].event)
      && k'.foreground == YieldForeground(k, i, parent).foreground
    ensures var k' := Exit(k, i, status);
      forall j: Slot :: Alive(k'.table[j]) <==>
        j != i && Alive(k.table[j]) && !(k.table[j].state == Stopped && k.table[j].ppid == k.table[i].pid)
    ensures var k' := Exit(k, i, status); var pid := k.table[i].pid; var init := GetProcess(k, 1);
      init != NIL && init != i && k.table[init].state != Killed && k.table[init].state != Stopped ==>
        && (forall j: Slot :: j != 0 && j != i && Occupied(k.table[j]) && k.table[j].ppid == pid ==>
              k'.table[j].ppid == 1)
        && (!CanBeTold(k, i, ParentOf(k, i)) ==> k'.table[i].ppid == 1)
  {
    hide Inv, Stage, SameParents, Ends, MarkDead, Announce, EndJobs, Bury, GiveWay, SwitchParent, StoppedJobs,
      YieldForeground, CanBeTold, Watchful, NoDup, ParentOf;
    var pid := k.table[i].pid;
    OffWaiting(k, i);
    DeathExact(k, i, status);
    var k1 := MarkDead(k, i, status);
    EndsMarkDead(k, i, status);
    EndsInv(k, k1, {i});
    var parent := ParentOf(k, i);
    var k2 := Announce(k1, i, parent);
    EndsAnnounce(k1, i, parent, {i});
    EndsInv(k1, k2, {i});
    SuspendedOnce(k2, {i});
    EndJobsExact(k2, pid, k2.suspended, {i});
    EndsJobs(k2, pid, k2.suspended, {i});
    var k3 := EndJobs(k2, pid, k2.suspended);
    EndsInv(k2, k3, {i});
    EndsEntry(k1, k2, {i}, i);
    EndsEntry(k2, k3, {i}, i);
    if pid == 1 {
      DyingInit(k3, i);
    }
    FarewellExact(k3, i, parent, pid);
    var k' := Bury(GiveWay(SwitchParent(k3, pid, 1, true), i, parent), i);
    assert k' == Exit(k, i, status);
    Deaths(k, k2, k3, k', i, parent, status);
    StageThen(k2, k3, k');
    StageEntry(k2, k', i);
    DyingJobs(k, k2, i, parent, status);
    YieldAfter(k, k2, k3, i, parent, status);
    if CanBeTold(k, i, parent) {
      ToldParent(k, k2, k', i, parent, status);
    }
    WatchfulReady(k, k2, k3, k', i);
    EventsKept(k, k2, k', i, parent, status);
    OrphansGoToInit(k, k2, k3, k', i, parent, status);
  }
}
