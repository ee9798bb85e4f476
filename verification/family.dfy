/** The process tree: a parent's PID is smaller than its child's, and a free slot has no PID in use. */
module Family {
  import opened ProcessModel
  import opened ProcessInvariant
  import opened KernelSteps
  import opened ProcessCalls
  import opened KernelRuns

  /** Parents are older than their children, init aside once it has become its own parent; the
      PID left in a free slot is one that has been reaped. */
  ghost predicate Kin(k: KState) {
    && (forall i: Slot :: i != 0 && Occupied(k.table[i]) ==>
          k.table[i].ppid < k.table[i].pid || (k.table[i].pid == 1 && k.table[i].ppid == 1))
    && (forall i: Slot :: i != 0 && !Occupied(k.table[i]) ==> k.table[i].pid == 0 || k.table[i].pid in k.reaped)
  }

  lemma KinFollows(k: KState, k': KState, limbo: set<Slot>)
    requires Kin(k) && Inv(k, limbo) && Follows(k, k')
    ensures Kin(k')
  {
    hide Queues, InOrder, Jobs, Reaped, SignalSets, Running1;
    forall i: Slot | i != 0
      ensures Occupied(k'.table[i]) ==>
        k'.table[i].ppid < k'.table[i].pid || (k'.table[i].pid == 1 && k'.table[i].ppid == 1)
      ensures !Occupied(k'.table[i]) ==> k'.table[i].pid == 0 || k'.table[i].pid in k'.reaped
    {
      assert EntryFollows(k.table[i], k'.table[i]);
    }
  }

  // ----- whole runs

  lemma BootKin()
    ensures Kin(Boot())
  {
    BootTable();
    hide DefaultHandlers, Boot;
  }

  lemma SameKin(p: Process, q: Process, reaped: seq<int>)
    requires SameSlot(p, q) && (Occupied(p) ==> 1 <= p.pid)
    requires Occupied(p) ==> p.ppid < p.pid || (p.pid == 1 && p.ppid == 1)
    requires !Occupied(p) ==> p.pid == 0 || p.pid in reaped
    ensures Occupied(q) ==> q.ppid < q.pid || (q.pid == 1 && q.ppid == 1)
    ensures !Occupied(q) ==> q.pid == 0 || q.pid in reaped
  {
  }

  lemma StepKin(k: KState, a: Action)
    requires Good(k) && Kin(k)
    ensures Kin(Step(k, a))
  {
    hide Good, Ages, EventOf, Step;
    SlotLifeCycle(k, a);
    var k' := Step(k, a);
    if EventOf(k, a).Born? {
      BirthPid(k, a);
    }
    forall i: Slot | i != 0
      ensures Occupied(k'.table[i]) ==>
        k'.table[i].ppid < k'.table[i].pid || (k'.table[i].pid == 1 && k'.table[i].ppid == 1)
      ensures !Occupied(k'.table[i]) ==> k'.table[i].pid == 0 || k'.table[i].pid in k'.reaped
    {
      OldPid(k, i);
      match EventOf(k, a)
      case NoChange => SameKin(k.table[i], k'.table[i], k.reaped);
      case Born(n, _) =>
        if i != n {
          SameKin(k.table[i], k'.table[i], k.reaped);
        }
      case Freed(w) =>
        if i != w {
          SameKin(k.table[i], k'.table[i], k.reaped);
        }
    }
  }

  lemma OldPid(k: KState, i: Slot)
    requires Good(k) && i != 0
    ensures Occupied(k.table[i]) ==> 1 <= k.table[i].pid
  {
    hide Queues, InOrder, Reaped, Running1, SignalSets, Jobs;
  }

  lemma BirthPid(k: KState, a: Action)
    requires Good(k) && EventOf(k, a).Born?
    ensures k.table[k.current].pid < k.nextPid
  {
    hide Good, FindUnused;
    CurrentPid(k);
  }

  lemma {:induction false} RunKin(k: KState, acts: seq<Action>)
    requires Good(k) && Kin(k)
    ensures Kin(Run(k, acts))
    decreases |acts|
  {
    hide Good, Kin, Step;
    if acts != [] {
      StepKin(k, acts[0]);
      GoodStep(k, acts[0]);
      RunKin(Step(k, acts[0]), acts[1..]);
    }
  }

  /** On every run from boot a process is younger than its parent, unless it is init: nobody is
      its own ancestor. */
  lemma ReachableKin(acts: seq<Action>)
    ensures Good(Boot())
    ensures var k := Run(Boot(), acts);
      && Kin(k)
      && forall i: Slot :: i != 0 && Occupied(k.table[i]) && k.table[i].pid > 1 && ParentOf(k, i) != NIL ==>
           k.table[ParentOf(k, i)].pid < k.table[i].pid
  {
    hide Good, Boot, Run, FindPid;
    GoodBoot();
    BootKin();
    RunKin(Boot(), acts);
  }

  // ----- consequences

  /** A PID belongs to one process, free slots included. */
  lemma OnePid(k: KState, limbo: set<Slot>, i: Slot, j: Slot)
    requires Inv(k, limbo) && Kin(k) && i != 0 && Occupied(k.table[i]) && k.table[j].pid == k.table[i].pid
    ensures i == j
  {
    hide Queues, InOrder, Jobs, SignalSets;
  }

  /** Nobody but init is its own parent. */
  lemma NotOwnParent(k: KState, i: Slot)
    requires Kin(k) && i != 0 && k.table[i].pid > 1
    ensures Occupied(k.table[i]) ==> GetProcess(k, k.table[i].ppid) != i
  {
    hide FindPid;
  }
}
