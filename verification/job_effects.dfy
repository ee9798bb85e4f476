/** What the end of a process means for its stopped jobs' children and for job numbers, what a
    continuation tells the parent, and how a pass of wait ends. */
module JobEffects {
  import opened Sequences
  import opened ProcessModel
  import opened ProcessInvariant
  import opened SignalProofs
  import opened PendingProofs
  import opened ProcessEffects
  import opened ExitEffects
  import opened StopEffects

  // ----- the children of stopped jobs

  /** A living child of slot `j`, within reach of a group signal. */
  predicate ChildOf(k: KState, j: Slot, c: Slot) {
    c >= 2 && Alive(k.table[c]) && k.table[c].ppid == k.table[j].pid && k.table[c].pid != k.table[j].pid
  }

  lemma EndJobTells(k: KState, j: Slot, limbo: set<Slot>, c: Slot)
    requires Inv(k, limbo) && j !in limbo && k.table[j].state == Stopped && c != j
    requires forall i :: i in limbo ==> !Alive(k.table[i])
    requires ChildOf(k, j, c)
    ensures SIGTERM in EndJob(k, j).table[c].signals
  {
    hide Inv, KillGroupFrom, Without, HitSleepers;
    EndJobSpread(k, j, limbo);
    var k1 := Put(k, j, k.table[j].(state := Killed, event := k.table[j].pid));
    assert Hit(k1.table[c], k.table[j].pid, false);
    assert HitEntry(k1.table[c], KillGroup(k1, k.table[j].pid, SIGTERM).table[c], SIGTERM);
  }

  lemma {:induction false} EndJobsTell(k: KState, pid: int, jobs: seq<Slot>, limbo: set<Slot>, j: Slot, c: Slot)
    requires Inv(k, limbo) && NoDup(jobs) && forall i :: i in limbo ==> !Alive(k.table[i])
    requires j in jobs && k.table[j].ppid == pid && k.table[j].state == Stopped && k.table[j].pid != pid
    requires ChildOf(k, j, c)
    ensures SIGTERM in EndJobs(k, pid, jobs).table[c].signals
    decreases |jobs|
  {
    hide Inv, Stage, SameParents, EndJob, Ends, StoppedJobs;
    var x := jobs[0];
    NoDupTail(jobs);
    assert jobs == [x] + jobs[1..];
    if k.table[x].ppid == pid && k.table[x].state == Stopped {
      var k1 := EndJob(k, x);
      LimboApart(k, x, limbo);
      EndJobExact(k, x, limbo);
      EndsJob(k, x, limbo);
      EndsInv(k, k1, limbo);
      StageDead(k, k1, limbo);
      SameParentsAll(k, k1);
      StageEntry(k, k1, j);
      StageEntry(k, k1, c);
      if x == j {
        EndJobTells(k, j, limbo, c);
        EndJobsExact(k1, pid, jobs[1..], limbo);
        StageEntry(k1, EndJobs(k1, pid, jobs[1..]), c);
      } else {
        EndJobsTell(k1, pid, jobs[1..], limbo, j, c);
      }
    } else {
      EndJobsTell(k, pid, jobs[1..], limbo, j, c);
    }
  }

  /** When a process exits, every living child of each of its stopped children has SIGTERM pending. */
  lemma ExitTellsGrandchildren(k: KState, i: Slot, status: bv32, j: Slot, c: Slot)
    requires Inv(k, {i}) && i != 0 && Alive(k.table[i]) && k.table[i].state != Init && i !in k.suspended
    requires j != i && c != i && k.table[j].state == Stopped && k.table[j].ppid == k.table[i].pid
    requires k.table[j].pid != k.table[i].pid && ChildOf(k, j, c)
    ensures SIGTERM in Exit(k, i, status).table[c].signals
  {
    hide Inv, Stage, SameParents, Ends, MarkDead, Announce, EndJobs, Bury, GiveWay, SwitchParent, StoppedJobs,
      YieldForeground, CanBeTold, Watchful, NoDup, ParentOf, SameAlive;
    var pid, parent := k.table[i].pid, ParentOf(k, i);
    OffWaiting(k, i);
    DeathExact(k, i, status);
    var k1 := MarkDead(k, i, status);
    EndsMarkDead(k, i, status);
    EndsInv(k, k1, {i});
    var k2 := Announce(k1, i, parent);
    EndsAnnounce(k1, i, parent, {i});
    EndsInv(k1, k2, {i});
    EndsEntry(k1, k2, {i}, i);
    SuspendedIff(k, i);
    DiedOthers(k, k2, i, parent, status, j);
    DiedOthers(k, k2, i, parent, status, c);
    SuspendedOnce(k2, {i});
    EndJobsTell(k2, pid, k2.suspended, {i}, j, c);
    EndJobsExact(k2, pid, k2.suspended, {i});
    EndsJobs(k2, pid, k2.suspended, {i});
    var k3 := EndJobs(k2, pid, k2.suspended);
    EndsInv(k2, k3, {i});
    EndsEntry(k2, k3, {i}, i);
    if pid == 1 {
      DyingInit(k3, i);
    }
    FarewellExact(k3, i, parent, pid);
    StageEntry(k3, Exit(k, i, status), c);
  }

  lemma DiedOthers(k: KState, k2: KState, i: Slot, parent: Link, status: bv32, j: Slot)
    requires Died(k, k2, i, parent, status) && j != i
    ensures var p, q := k.table[j], k2.table[j];
      q.state == p.state && q.pid == p.pid && q.ppid == p.ppid && k2.suspended == k.suspended
  {
  }

  // ----- job numbers that are handed over

  /** A child of `from` with a job number that it keeps as a job of its new parent. */
  predicate Renumbered(p: Process, from: int) {
    Occupied(p) && p.ppid == from && p.jobSpec != 0 && p.state != Stopped
  }

  /** How many of them there are from slot `n` up to `m`. */
  function Renumberings(t: Table, from: int, n: nat, m: nat): nat
    requires n <= m <= TABLE_SIZE
    decreases m - n
  {
    if n == m then 0 else (if Renumbered(t[n], from) then 1 else 0) + Renumberings(t, from, n + 1, m)
  }

  lemma {:induction false} SameRenumberings(t: Table, t': Table, from: int, n: nat, m: nat)
    requires n <= m <= TABLE_SIZE
    requires forall i: Slot :: i >= n ==> (Renumbered(t'[i], from) <==> Renumbered(t[i], from))
    ensures Renumberings(t', from, n, m) == Renumberings(t, from, n, m)
    decreases m - n
  {
    if n < m {
      SameRenumberings(t, t', from, n + 1, m);
    }
  }

  lemma OneHandedOver(k: KState, parent: Slot, from: int, to: int, n: Slot)
    requires Occupied(k.table[n]) && k.table[n].ppid == from && from != to
    ensures var a := Put(k, n, k.table[n].(ppid := to));
      var k1 := if a.table[n].jobSpec != 0 && a.table[n].state != Stopped then NewJob(a, parent, n) else a;
      && (forall i: Slot :: i != n ==> (Renumbered(k1.table[i], from) <==> Renumbered(k.table[i], from)))
      && k1.table[parent].jobs == k.table[parent].jobs + (if Renumbered(k.table[n], from) then 1 else 0)
      && (Renumbered(k.table[n], from) ==> k1.table[n].jobSpec == k.table[parent].jobs + 1)
      && k1.table[n].ppid == to
  {
  }

  /** The running jobs that are handed over get the next numbers of their new parent, in table order, and
      its count grows by as many. */
  lemma {:induction false} JobsRenumbered(k: KState, parent: Slot, from: int, to: int, n: nat)
    requires 1 <= n <= TABLE_SIZE && from != to
    ensures var k' := SwitchParentFrom(k, parent, from, to, true, n);
      && k'.table[parent].jobs == k.table[parent].jobs + Renumberings(k.table, from, n, TABLE_SIZE)
      && (forall i: Slot :: i >= n && Renumbered(k.table[i], from) ==>
            k'.table[i].jobSpec == k.table[parent].jobs + Renumberings(k.table, from, n, i + 1))
      && (forall i: Slot :: i < n ==> k'.table[i].jobSpec == k.table[i].jobSpec)
    decreases TABLE_SIZE - n
  {
    hide NewJob, Renumbered;
    if n == TABLE_SIZE {
    } else if Occupied(k.table[n]) && k.table[n].ppid == from {
      var a := Put(k, n, k.table[n].(ppid := to));
      var k1 := if a.table[n].jobSpec != 0 && a.table[n].state != Stopped then NewJob(a, parent, n) else a;
      OneHandedOver(k, parent, from, to, n);
      NewJobKeepsOthers(a, parent, n);
      JobsRenumbered(k1, parent, from, to, n + 1);
      SameRenumberings(k.table, k1.table, from, n + 1, TABLE_SIZE);
      forall i: Slot | i > n && Renumbered(k.table[i], from)
        ensures Renumberings(k1.table, from, n + 1, i + 1) == Renumberings(k.table, from, n + 1, i + 1)
      {
        SameRenumberings(k.table, k1.table, from, n + 1, i + 1);
      }
    } else {
      JobsRenumbered(k, parent, from, to, n + 1);
      NotRenumbered(k.table[n], from);
    }
  }

  lemma NotRenumbered(p: Process, from: int)
    requires !(Occupied(p) && p.ppid == from)
    ensures !Renumbered(p, from)
  {
  }

  lemma NewJobKeepsOthers(k: KState, parent: Slot, n: Slot)
    ensures forall i: Slot :: i != n ==> NewJob(k, parent, n).table[i].jobSpec == k.table[i].jobSpec
  {
  }

  // ----- continue

  /** A living parent is told that its child goes on. */
  lemma ContinueTells(k: KState, i: Slot)
    requires Inv(k, {}) && i != 0 && k.table[i].state == Stopped && k.table[i].pid > 1
    requires !k.faulted && CanTakeOver(k, i)
    ensures var parent := ParentOf(k, i);
      parent != NIL && k.table[parent].state != Killed && parent != i ==>
        SIGCHLD in ContinueHandler(k, i).table[parent].signals
  {
    hide Inv, Resume, FinishContinue, PauseForeground, FindPid, CanTakeOver;
    ContinueFaultsIff(k, i);
    var k1 := Resume(k, i);
    ResumeExact(k, i);
    if k1.foreground != NIL {
      PauseExact(k1);
    }
    var k2 := if k1.table[i].daemon then k1
              else (if k1.foreground != NIL then PauseForeground(k1) else k1).(foreground := i);
    assert ContinueHandler(k, i) == FinishContinue(k2, i);
    if !k.table[i].daemon {
      HolderLives(k, i);
    }
    SameTree(k, k2, i);
    var parent := ParentOf(k, i);
    if parent != NIL && k.table[parent].state != Killed && parent != i {
      FinishTells(k2, i);
    }
  }

  lemma HolderLives(k: KState, i: Slot)
    requires Inv(k, {}) && CanTakeOver(k, i) && !k.table[i].daemon && k.table[i].state == Stopped
    ensures k.foreground != NIL ==> Alive(k.table[k.foreground])
  {
    hide Inv;
    if k.foreground in k.ready {
      ReadySlot(k, k.foreground);
    } else if k.foreground != NIL && IsLast(k.waiting, k.foreground) {
      Sleeping(k, k.foreground);
    }
  }

  lemma SameTree(k: KState, k': KState, i: Slot)
    requires forall j: Slot :: k'.table[j].pid == k.table[j].pid && (Occupied(k'.table[j]) <==> Occupied(k.table[j]))
    requires k'.table[i].ppid == k.table[i].ppid
    ensures ParentOf(k', i) == ParentOf(k, i)
  {
    FindPidFrame(k.table, k'.table, k.table[i].ppid, 1);
  }

  lemma FinishTells(k: KState, i: Slot)
    requires ParentOf(k, i) != NIL && k.table[ParentOf(k, i)].state != Killed
    ensures SIGCHLD in FinishContinue(k, i).table[ParentOf(k, i)].signals
  {
    hide FindPid, ContinuedStatus;
    var k1 := Put(k, i, k.table[i].(status := ContinuedStatus(k.table[i].status)));
    SameTree(k, k1, i);
  }
}
