/** The kernel's data in memory: the process table, one link per slot and four lists. The
    ghost field `k` is the abstract state that the data stands for. */
module KernelImage {
  import opened Sequences
  import opened ProcessModel
  import opened ProcessInvariant
  import opened WakeupProofs
  import opened SignalProofs
  import opened HandlerProofs
  import opened PendingProofs
  import opened Scheduler
  import opened SuspendedProofs
  import opened KernelSteps
  import opened ProcessCalls
  import opened ProcessWait
  import opened IntrusiveLists
  import PM = ProcessModel

  datatype QueueId = ReadyQue | WaitList | SuspendedList | ZombieList

  function QueueOf(k: KState, q: QueueId): seq<Slot> {
    match q
    case ReadyQue => k.ready
    case WaitList => k.waiting
    case SuspendedList => k.suspended
    case ZombieList => k.zombies
  }

  function WithQueue(k: KState, q: QueueId, s: seq<Slot>): KState {
    match q
    case ReadyQue => k.(ready := s)
    case WaitList => k.(waiting := s)
    case SuspendedList => k.(suspended := s)
    case ZombieList => k.(zombies := s)
  }

  predicate OffQueues(k: KState, i: Slot) {
    i !in k.ready && i !in k.waiting && i !in k.suspended && i !in k.zombies
  }

  /** A slot is on one queue at most; this is what lets the queues share one link per slot. */
  ghost predicate Disjoint(k: KState) {
    forall i: Slot ::
      && (i in k.ready ==> i !in k.waiting && i !in k.suspended && i !in k.zombies)
      && (i in k.waiting ==> i !in k.suspended && i !in k.zombies)
      && (i in k.suspended ==> i !in k.zombies)
  }

  lemma DisjointPush(k: KState, q: QueueId, i: Slot)
    requires Disjoint(k) && OffQueues(WithQueue(k, q, []), i)
    ensures Disjoint(WithQueue(k, q, Pushed(QueueOf(k, q), i)))
  {
    PushedOnly(QueueOf(k, q), i);
    hide Pushed;
  }

  lemma {:induction false} PushedOnly(q: seq<Slot>, i: Slot)
    ensures forall x :: x in Pushed(q, i) ==> x in q || x == i
  {
    if q != [] {
      PushedOnly(q[1..], i);
    }
  }

  lemma OffOrOn(k: KState, q: QueueId, i: Slot)
    requires OffQueues(WithQueue(k, q, []), i)
    ensures i in QueueOf(k, q) || OffQueues(k, i)
  {
  }

  /** A foreground process that can be paused is on the wait list at most, unless it is ready. */
  lemma OnWaitListOnly(k: KState)
    requires Disjoint(k) && k.foreground != NIL && PauseIsSafe(k)
    ensures k.foreground in k.ready || OffQueues(k.(waiting := []), k.foreground)
  {
  }

  lemma OffWaitList(k: KState, i: Slot)
    requires OffQueues(k, i)
    ensures OffQueues(k.(waiting := []), i)
  {
  }

  lemma DisjointDrop(k: KState, q: QueueId, s: seq<Slot>)
    requires Disjoint(k) && forall i :: i in s ==> i in QueueOf(k, q)
    ensures Disjoint(WithQueue(k, q, s))
  {
  }

  lemma LinkedNone(tail: Link, next: Links)
    ensures Linked(NIL, tail, next, [])
  {
  }

  lemma BootDisjoint()
    ensures Disjoint(Boot())
  {
    hide BlankTable, InitProcess;
  }

  /** A slot that leaves its queue is on no other. */
  lemma TakenOff(k: KState, q: QueueId, i: Slot)
    requires Disjoint(k) && NoDup(QueueOf(k, q)) && i in QueueOf(k, q)
    ensures var k' := WithQueue(k, q, Without(QueueOf(k, q), i));
      Disjoint(k') && OffQueues(k', i)
  {
    WithoutNoDup(QueueOf(k, q), i);
    WithoutSubset(QueueOf(k, q), i);
    DisjointDrop(k, q, Without(QueueOf(k, q), i));
    hide NoDup, Without;
  }

  lemma BootEntries(t: Table)
    requires t[0] == Blank().(state := Running, daemon := true) && t[1] == InitProcess()
    requires forall i: Slot :: i != 0 && i != 1 ==> t[i] == Blank()
    ensures t == Boot().table
  {
    hide DefaultHandlers;
  }

  class Kernel {
    const table: array<Process>
    const next: array<Link>
    const ready: List
    const waiting: List
    const suspended: List
    const zombies: List
    var current: Slot
    var foreground: Link
    var nextPid: int
    var shutdown: bool
    /** A history variable: the next ready-queue stamp. */
    var arrivals: nat
    ghost var k: KState

    /** The state in which init_process leaves the kernel. */
    constructor ()
      ensures Valid() && k == Boot()
      ensures fresh(table) && fresh(next) && fresh(ready) && fresh(waiting) && fresh(suspended) && fresh(zombies)
    {
      hide Linked, DefaultHandlers, Disjoint;
      table := new Process[TABLE_SIZE](_ => Blank());
      next := new Link[TABLE_SIZE](_ => NIL);
      ready := new List();
      waiting := new List();
      suspended := new List();
      zombies := new List();
      current, foreground, nextPid, shutdown, arrivals := 0, NIL, 2, false, 1;
      k := Boot();
      new;
      table[0] := table[0].(state := Running, daemon := true);
      table[1] := InitProcess();
      LinkedNone(ready.tail, next[..]);
      IntrusiveLists.PushBack(ready, next, 1, []);
      assert Pushed([], 1) == Boot().ready;
      BootEntries(table[..]);
      BootDisjoint();
      LinkedNone(waiting.tail, next[..]);
      LinkedNone(suspended.tail, next[..]);
      LinkedNone(zombies.tail, next[..]);
    }

    ghost predicate Valid()
      reads this, table, next, ready, waiting, suspended, zombies
    {
      && table.Length == TABLE_SIZE && next.Length == TABLE_SIZE
      && ready != waiting && ready != suspended && ready != zombies
      && waiting != suspended && waiting != zombies && suspended != zombies
      && table[..] == k.table
      && Linked(ready.head, ready.tail, next[..], k.ready)
      && Linked(waiting.head, waiting.tail, next[..], k.waiting)
      && Linked(suspended.head, suspended.tail, next[..], k.suspended)
      && Linked(zombies.head, zombies.tail, next[..], k.zombies)
      && Disjoint(k)
      && current == k.current && foreground == k.foreground && nextPid == k.nextPid
      && shutdown == k.shutdown && arrivals == k.arrivals
    }

    function ListOf(q: QueueId): List {
      match q
      case ReadyQue => ready
      case WaitList => waiting
      case SuspendedList => suspended
      case ZombieList => zombies
    }

    /** An update of a table entry. */
    method SetEntry(i: Slot, p: Process)
      requires Valid()
      modifies table, this`k
      ensures Valid() && k == Put(old(k), i, p)
    {
      table[i] := p;
      k := Put(k, i, p);
    }

    method SetForeground(f: Link)
      requires Valid()
      modifies this`foreground, this`k
      ensures Valid() && k == old(k).(foreground := f)
    {
      foreground := f;
      k := k.(foreground := f);
    }

    /** Lists that do not run through the slots whose links have changed stay as they are. */
    lemma KeepLinks(q: QueueId, links: Links)
      requires next.Length == TABLE_SIZE && Disjoint(k)
      requires forall j: Slot :: next[j] == links[j] || j in QueueOf(k, q) || OffQueues(k, j)
      ensures q != ReadyQue && Linked(ready.head, ready.tail, links, k.ready) ==>
          Linked(ready.head, ready.tail, next[..], k.ready)
      ensures q != WaitList && Linked(waiting.head, waiting.tail, links, k.waiting) ==>
          Linked(waiting.head, waiting.tail, next[..], k.waiting)
      ensures q != SuspendedList && Linked(suspended.head, suspended.tail, links, k.suspended) ==>
          Linked(suspended.head, suspended.tail, next[..], k.suspended)
      ensures q != ZombieList && Linked(zombies.head, zombies.tail, links, k.zombies) ==>
          Linked(zombies.head, zombies.tail, next[..], k.zombies)
    {
      if q != ReadyQue && Linked(ready.head, ready.tail, links, k.ready) {
        LinkedFrame(ready.head, ready.tail, links, next[..], k.ready);
      }
      if q != WaitList && Linked(waiting.head, waiting.tail, links, k.waiting) {
        LinkedFrame(waiting.head, waiting.tail, links, next[..], k.waiting);
      }
      if q != SuspendedList && Linked(suspended.head, suspended.tail, links, k.suspended) {
        LinkedFrame(suspended.head, suspended.tail, links, next[..], k.suspended);
      }
      if q != ZombieList && Linked(zombies.head, zombies.tail, links, k.zombies) {
        LinkedFrame(zombies.head, zombies.tail, links, next[..], k.zombies);
      }
    }

    lemma QueueLinked(q: QueueId)
      requires Valid()
      ensures Linked(ListOf(q).head, ListOf(q).tail, next[..], QueueOf(k, q)) && NoDup(QueueOf(k, q))
    {
    }

    /** A push of a slot that is on none of the other queues. */
    method Push(q: QueueId, i: Slot)
      requires Valid() && OffQueues(WithQueue(k, q, []), i)
      modifies this`k, next, ready, waiting, suspended, zombies
      ensures Valid() && k == WithQueue(old(k), q, Pushed(QueueOf(old(k), q), i))
    {
      hide NoDup, Pushed, Linked, Disjoint;
      QueueLinked(q);
      IntrusiveLists.PushBack(ListOf(q), next, i, QueueOf(k, q));
      DisjointPush(k, q, i);
      OffOrOn(k, q, i);
      KeepLinks(q, old(next[..]));
      k := WithQueue(k, q, Pushed(QueueOf(k, q), i));
    }

    method PushBack(q: QueueId, i: Slot)
      requires Valid() && OffQueues(k, i)
      modifies this`k, next, ready, waiting, suspended, zombies
      ensures Valid() && k == WithQueue(old(k), q, QueueOf(old(k), q) + [i])
    {
      hide Valid, Pushed;
      PushedNew(QueueOf(k, q), i);
      Push(q, i);
    }

    /** The slot, if it was queued, is now on no queue. */
    method Unlink(q: QueueId, i: Slot) returns (found: bool)
      requires Valid()
      modifies this`k, next, ready, waiting, suspended, zombies
      ensures Valid() && k == WithQueue(old(k), q, Without(QueueOf(old(k), q), i))
      ensures found <==> i in QueueOf(old(k), q)
      ensures found ==> OffQueues(k, i)
    {
      hide Linked, Without, Disjoint, OffQueues;
      QueueLinked(q);
      var r := IntrusiveLists.Remove(ListOf(q), next, i, QueueOf(k, q));
      found := r != NIL;
      KeepLinks(q, old(next[..]));
      if found {
        TakenOff(k, q, i);
      } else {
        WithoutSubset(QueueOf(k, q), i);
        DisjointDrop(k, q, Without(QueueOf(k, q), i));
      }
      k := WithQueue(k, q, Without(QueueOf(k, q), i));
    }

    method Has(q: QueueId, i: Slot) returns (found: bool)
      requires Valid()
      ensures found <==> i in QueueOf(k, q)
    {
      hide NoDup;
      QueueLinked(q);
      found := IntrusiveLists.Contains(ListOf(q), next, i, QueueOf(k, q));
    }

    method PopReady() returns (node: Link)
      requires Valid()
      modifies this`k, ready
      ensures node == if old(k).ready == [] then NIL else old(k).ready[0]
      ensures Valid() && k == old(k).(ready := if node == NIL then [] else old(k).ready[1..])
      ensures node != NIL ==> OffQueues(k, node)
    {
      hide Linked, Disjoint, OffQueues;
      QueueLinked(ReadyQue);
      node := IntrusiveLists.PopFront(ready, next, k.ready);
      if node != NIL {
        assert Without(k.ready, node) == k.ready[1..];
        TakenOff(k, ReadyQue, node);
        k := k.(ready := k.ready[1..]);
      }
    }

    /** The first waiter on `event` leaves its queue. */
    method TakeWaiter(q: QueueId, from: Link, event: int) returns (node: Link, cursor: Link)
      requires Valid() && from == NIL
      modifies this`k, next, ready, waiting, suspended, zombies
      ensures Valid() && cursor == NIL
      ensures var s := QueueOf(old(k), q); var j := FirstWaiter(old(k).table, s, event);
        && node == (if j < |s| then s[j] else NIL)
        && k == if j < |s| then WithQueue(old(k), q, Without(s, s[j])) else old(k)
      ensures node != NIL ==> OffQueues(k, node)
    {
      hide Linked, Without, Disjoint, OffQueues, FirstWaiter;
      QueueLinked(q);
      ghost var s := QueueOf(k, q);
      node, cursor := IntrusiveLists.RemoveEvt(ListOf(q), next, table, from, event, s, 0);
      assert s[0..] == s;
      KeepLinks(q, old(next[..]));
      if node != NIL {
        ghost var i: Slot := node;
        TakenOff(k, q, i);
        k := WithQueue(k, q, Without(s, i));
      }
    }

    // ----- fields

    method Entry(i: Slot) returns (p: Process)
      requires Valid()
      ensures p == k.table[i]
    {
      p := table[i];
    }

    lemma Fields()
      requires Valid()
      ensures current == k.current && foreground == k.foreground && nextPid == k.nextPid
      ensures shutdown == k.shutdown && arrivals == k.arrivals
    {
    }

    /** READY with a fresh stamp, before the process is queued. */
    method Stamp(i: Slot)
      requires Valid()
      modifies table, this`arrivals, this`k
      ensures Valid()
      ensures var p := old(k).table[i].(state := Ready, arrival := old(k).arrivals);
        k == Put(old(k), i, p).(arrivals := old(k).arrivals + 1)
    {
      hide Linked;
      table[i] := table[i].(state := Ready, arrival := arrivals);
      arrivals := arrivals + 1;
      k := Put(k, i, k.table[i].(state := Ready, arrival := k.arrivals)).(arrivals := k.arrivals + 1);
    }

    method MakeReady(i: Slot)
      requires Valid() && OffQueues(k, i)
      modifies this`arrivals, this`k, table, next, ready, waiting, suspended, zombies
      ensures Valid() && k == PM.MakeReady(old(k), i)
    {
      hide Valid;
      Stamp(i);
      PushBack(ReadyQue, i);
    }

    method MakeAsleep(i: Slot)
      requires Valid() && OffQueues(k, i)
      modifies this`k, table, next, ready, waiting, suspended, zombies
      ensures Valid() && k == PM.MakeAsleep(old(k), i)
    {
      hide Valid;
      var p := Entry(i);
      SetEntry(i, p.(state := Asleep));
      PushBack(WaitList, i);
    }

    // ----- searches

    method GetProcess(pid: int) returns (r: Link)
      requires Valid()
      ensures r == PM.GetProcess(k, pid)
    {
      hide Valid;
      for i := 1 to TABLE_SIZE
        invariant FindPid(k.table, pid, 1) == FindPid(k.table, pid, i)
      {
        var p := Entry(i);
        if p.state != Unused && p.pid == pid {
          return i;
        }
      }
      return NIL;
    }

    method FindJob(jobSpec: int, ppid: int) returns (r: Link)
      requires Valid()
      ensures r == PM.FindJob(k, jobSpec, ppid)
    {
      hide Valid;
      if jobSpec <= 0 {
        return NIL;
      }
      for i := 1 to TABLE_SIZE
        invariant FindJobFrom(k.table, jobSpec, ppid, 1) == FindJobFrom(k.table, jobSpec, ppid, i)
      {
        var p := Entry(i);
        if p.state != Unused && p.ppid == ppid && p.jobSpec == jobSpec {
          return i;
        }
      }
      return NIL;
    }

    // ----- wake_up and kill

    /** The ready queue gains exactly the waiters on `event`. */
    method WakeUp(event: int)
      requires Valid()
      modifies this`arrivals, this`k, table, next, ready, waiting, suspended, zombies
      ensures Valid() && k == PM.WakeUp(old(k), event)
    {
      hide Valid, FirstWaiter, Without;
      var process, cursor := TakeWaiter(WaitList, NIL, event);
      while process != NIL
        invariant Valid() && cursor == NIL
        invariant process != NIL ==> OffQueues(k, process)
        invariant PM.WakeUp(old(k), event) ==
          if process == NIL then k
          else PM.WakeUp(PM.MakeReady(Put(k, process, k.table[process].(event := NONE)), process), event)
        decreases |k.waiting| + if process == NIL then 0 else 1
      {
        var queued := Has(ReadyQue, process);
        if !queued {
          var p := Entry(process);
          SetEntry(process, p.(event := NONE));
          MakeReady(process);
        }
        process, cursor := TakeWaiter(WaitList, cursor, event);
      }
    }

    /** Post a signal to one living process and pull it out of an interruptible sleep. */
    method Deliver(i: Slot, sig: Signal)
      requires Valid() && (k.table[i].state == Asleep ==> i in k.waiting)
      modifies this`arrivals, this`k, table, next, ready, waiting, suspended, zombies
      ensures Valid() && k == PM.Deliver(old(k), i, sig)
    {
      hide Valid, Without;
      var p := Entry(i);
      var signals := p.signals;
      if sig == SIGSTOP || sig == SIGTSTP {
        signals := signals - {SIGCONT};
      } else if sig == SIGCONT {
        signals := signals - {SIGSTOP, SIGTSTP};
      }
      SetEntry(i, p.(signals := signals + {sig}));
      if p.state == Asleep {
        var _ := Unlink(WaitList, i);
        MakeReady(i);
      }
    }

    method KillGroup(sender: int, sig: Signal, ghost limbo: set<Slot>)
      requires Valid() && Inv(k, limbo) && Spared(k, sender, limbo)
      modifies this`arrivals, this`k, table, next, ready, waiting, suspended, zombies
      ensures Valid() && k == PM.KillGroup(old(k), sender, sig)
    {
      hide Valid, Inv, Spared, PM.Deliver, KillGroupFrom;
      for i := 2 to TABLE_SIZE
        invariant Valid() && Inv(k, limbo) && Spared(k, sender, limbo)
        invariant KillGroupFrom(k, sender, sig, i) == KillGroupFrom(old(k), sender, sig, 2)
      {
        KillGroupStep(k, sender, sig, i, limbo);
        var p := Entry(i);
        if p.pid != sender && !(p.state == Unused || p.state == Killed) && sender == p.ppid {
          Deliver(i, sig);
        }
      }
      KillGroupEnd(k, sender, sig);
    }

    method KillAll(sender: int, sig: Signal)
      requires Valid() && Inv(k, {}) && sig != SIGHUP
      modifies this`arrivals, this`k, table, next, ready, waiting, suspended, zombies
      ensures Valid() && k == PM.KillAll(old(k), sender, sig)
    {
      hide Valid, Inv, PM.Deliver, KillAllFrom;
      for i := 2 to TABLE_SIZE
        invariant Valid() && Inv(k, {})
        invariant KillAllFrom(k, sender, sig, i) == KillAllFrom(old(k), sender, sig, 2)
      {
        KillAllStep(k, sender, sig, i);
        var p := Entry(i);
        if p.pid != sender && !(p.state == Unused || p.state == Killed) {
          Deliver(i, sig);
        }
      }
      KillAllEnd(k, sender, sig);
      if sig == SIGTERM {
        var p := Entry(1);
        SetEntry(1, p.(signals := p.signals + {sig}));
        p := Entry(0);
        SetEntry(0, p.(signals := p.signals + {sig}));
      }
    }

    /** kill, apart from the broadcast of SIGHUP. */
    method Kill(sender: int, pid: int, sig: int) returns (r: int)
      requires Valid() && Inv(k, {}) && !(pid == -1 && sig == SIGHUP)
      modifies this`arrivals, this`k, table, next, ready, waiting, suspended, zombies
      ensures Valid() && k == PM.Kill(old(k), sender, pid, sig)
      ensures r == if 0 <= sig < TOTAL_SIGNALS && (pid == -1 || pid == 0 || PM.GetProcess(old(k), pid) != NIL)
                   then 0 else -1
    {
      hide Valid, Inv, PM.Deliver, PM.KillAll, KillGroupFrom;
      if sig < 0 || sig > TOTAL_SIGNALS - 1 {
        return -1;
      }
      if pid == -1 {
        KillAll(sender, sig);
        return 0;
      }
      if pid == 0 {
        KillGroup(sender, sig, {});
        return 0;
      }
      var target := GetProcess(pid);
      if target == NIL {
        return -1;
      }
      AsleepQueued(k, target, {});
      Deliver(target, sig);
      return 0;
    }

    // ----- walking a list

    method Front(q: QueueId) returns (r: Link)
      requires Valid()
      ensures r == if QueueOf(k, q) == [] then NIL else QueueOf(k, q)[0]
    {
      hide Disjoint;
      r := ListOf(q).head;
    }

    /** The link of the node at position `n` of a list. */
    method Next(i: Slot, ghost q: QueueId, ghost n: nat) returns (r: Link)
      requires Valid() && n < |QueueOf(k, q)| && QueueOf(k, q)[n] == i
      ensures r == if n + 1 < |QueueOf(k, q)| then QueueOf(k, q)[n+1] else NIL
    {
      QueueLinked(q);
      hide Valid, NoDup;
      LinkedNext(ListOf(q).head, ListOf(q).tail, next[..], QueueOf(k, q), n);
      r := next[i];
    }

    /** The link of the first of the jobs that are still to be visited. */
    method NextJob(job: Slot, ghost done: seq<Slot>, ghost jobs: seq<Slot>) returns (r: Link)
      requires Valid() && k.suspended == done + jobs && jobs != [] && jobs[0] == job
      ensures r == if jobs[1..] == [] then NIL else jobs[1..][0]
    {
      hide Valid;
      r := Next(job, SuspendedList, |done|);
    }

    // ----- the process tree

    method SwitchParent(old_: int, new_: int, transferJobs: bool)
      requires Valid()
      modifies table, this`k
      ensures Valid() && k == PM.SwitchParent(old(k), old_, new_, transferJobs)
    {
      hide Valid, SwitchParentFrom, PM.NewJob;
      var parent := GetProcess(new_);
      if parent == NIL {
        return;
      }
      var pp := Entry(parent);
      if pp.state == Killed {
        return;
      }
      for i := 1 to TABLE_SIZE
        invariant Valid()
        invariant SwitchParentFrom(k, parent, old_, new_, transferJobs, i)
          == SwitchParentFrom(old(k), parent, old_, new_, transferJobs, 1)
      {
        SwitchParentStep(k, parent, old_, new_, transferJobs, i);
        var p := Entry(i);
        if p.state != Unused && p.ppid == old_ {
          SetEntry(i, p.(ppid := new_));
          if transferJobs && p.jobSpec != 0 && p.state != Stopped {
            NewJob(parent, i);
          }
        }
      }
      SwitchParentEnd(k, parent, old_, new_, transferJobs);
    }

    method NewJob(parent: Slot, i: Slot)
      requires Valid()
      modifies table, this`k
      ensures Valid() && k == PM.NewJob(old(k), parent, i)
    {
      hide Valid;
      var pp := Entry(parent);
      SetEntry(parent, pp.(jobs := pp.jobs + 1));
      var p := Entry(i);
      pp := Entry(parent);
      SetEntry(i, p.(jobSpec := pp.jobs));
    }

    method Notify(parent: Link, status: bv32)
      requires Valid()
      modifies table, this`k
      ensures Valid() && k == PM.Notify(old(k), parent, status)
    {
      hide Valid;
      if parent != NIL {
        var pp := Entry(parent);
        if pp.state != Killed {
          SetEntry(parent, pp.(signals := pp.signals + {SIGCHLD}, status := status));
        }
      }
    }

    method YieldForeground(i: Slot, parent: Link)
      requires Valid()
      modifies this`foreground, this`k
      ensures Valid() && k == PM.YieldForeground(old(k), i, parent)
    {
      Fields();
      hide Valid;
      if foreground != NIL {
        var f := Entry(foreground);
        var p := Entry(i);
        if p.pid == f.pid {
          if parent != NIL {
            var pp := Entry(parent);
            SetForeground(if !pp.daemon then parent else NIL);
          } else {
            SetForeground(NIL);
          }
        }
      }
    }

    method GiveWay(i: Slot, parent: Link)
      requires Valid()
      modifies this, table, next, ready, waiting, suspended, zombies
      ensures Valid() && k == PM.GiveWay(old(k), i, parent)
    {
      hide Valid, PM.WakeUp, PM.YieldForeground;
      YieldForeground(i, parent);
      var p := Entry(i);
      if !p.daemon {
        WakeUp(FG_PAUSED);
      }
    }

    // ----- exit

    method EndJob(j: Slot, ghost limbo: set<Slot>)
      requires Valid() && Inv(k, limbo) && j !in limbo && k.table[j].state == Stopped
      requires forall i :: i in limbo ==> !Alive(k.table[i])
      modifies this, table, next, ready, waiting, suspended, zombies
      ensures Valid() && k == PM.EndJob(old(k), j)
    {
      hide Valid, Inv, KillGroupFrom, Without, Spared;
      EndJobParts(k, j, limbo);
      var p := Entry(j);
      SetEntry(j, p.(state := Killed, event := p.pid));
      KillGroup(p.pid, SIGTERM, limbo + {j});
      var _ := Unlink(SuspendedList, j);
      PushBack(ZombieList, j);
    }

    /** One turn of the loop over the suspended list. */
    method EndOwnJob(j: Slot, pid: int, ghost limbo: set<Slot>)
      requires Valid() && Inv(k, limbo) && forall i :: i in limbo ==> !Alive(k.table[i])
      modifies this, table, next, ready, waiting, suspended, zombies
      ensures Valid()
      ensures var p := old(k).table[j];
        k == if p.ppid == pid && p.state == Stopped then PM.EndJob(old(k), j) else old(k)
    {
      hide Valid, Inv, PM.EndJob;
      var p := Entry(j);
      if p.ppid == pid && p.state == Stopped {
        EndJob(j, limbo);
      }
    }

    /** The saved link stays valid although the loop takes jobs off the list it walks: what is
        left to visit is always the end of the suspended list. */
    method EndJobs(pid: int, ghost limbo: set<Slot>)
      requires Valid() && Inv(k, limbo) && forall i :: i in limbo ==> !Alive(k.table[i])
      modifies this, table, next, ready, waiting, suspended, zombies
      ensures Valid() && k == PM.EndJobs(old(k), pid, old(k).suspended)
    {
      hide Valid, Inv, PM.EndJob, Ends, Without, PM.EndJobs;
      ghost var jobs, done := k.suspended, [];
      var job := Front(SuspendedList);
      assert k.suspended == [] + jobs;
      while job != NIL
        invariant Valid() && Inv(k, limbo) && forall i :: i in limbo ==> !Alive(k.table[i])
        invariant k.suspended == done + jobs && job == (if jobs == [] then NIL else jobs[0])
        invariant PM.EndJobs(k, pid, jobs) == PM.EndJobs(old(k), pid, old(k).suspended)
        decreases |jobs|
      {
        var nextJob := NextJob(job, done, jobs);
        EndJobsStep(k, pid, jobs, done, limbo);
        ghost var entry := k.table[job];
        EndOwnJob(job, pid, limbo);
        done := if entry.ppid == pid && entry.state == Stopped then done else done + [jobs[0]];
        jobs := jobs[1..];
        job := nextJob;
      }
      EndJobsNone(k, pid);
    }

    method Bury(i: Slot)
      requires Valid() && OffQueues(k, i)
      modifies this, table, next, ready, waiting, suspended, zombies
      ensures Valid() && k == PM.Bury(old(k), i)
    {
      hide Valid, PM.WakeUp;
      PushBack(ZombieList, i);
      WakeUp(STATE_CHANGE);
    }

    /** exit without its final call of the scheduler, for a process on no queue. */
    method Exit(i: Slot, status: bv32)
      requires Valid() && Inv(k, {i}) && i != 0 && Alive(k.table[i]) && k.table[i].state != Init && i !in k.suspended
      modifies this, table, next, ready, waiting, suspended, zombies
      ensures Valid() && k == PM.Exit(old(k), i, status)
    {
      hide Valid, Inv, PM.EndJobs, PM.SwitchParent, PM.GiveWay, PM.Bury, PM.GetProcess, PM.Notify;
      ExitParts(k, i, status);
      var p := Entry(i);
      var pid := p.pid;
      SetEntry(i, p.(status := status, state := Killed, event := pid));
      var parent := GetProcess(p.ppid);
      var orphan := true;
      if parent != NIL {
        var pp := Entry(parent);
        orphan := pp.state == Killed;
      }
      if !orphan {
        Notify(parent, status);
      } else {
        p := Entry(i);
        SetEntry(i, p.(ppid := 1));
      }
      EndJobs(pid, {i});
      SwitchParent(pid, 1, true);
      GiveWay(i, parent);
      Bury(i);
    }

    // ----- the signal handlers

    method LeaveActive(i: Slot)
      requires Valid()
      modifies this, table, next, ready, waiting, suspended, zombies
      ensures Valid() && k == PM.LeaveActive(old(k), i)
    {
      hide Valid, Without;
      var queued := Has(ReadyQue, i);
      if queued {
        var _ := Unlink(ReadyQue, i);
      } else {
        queued := Has(WaitList, i);
        if queued {
          var _ := Unlink(WaitList, i);
        }
      }
    }

    /** SIGHUP, SIGINT, SIGABRT and SIGTERM. */
    method Terminate(i: Slot, sig: Signal)
      requires Valid() && Inv(k, {}) && i != 0 && (k.table[i].state == Ready || k.table[i].state == Asleep)
      modifies this, table, next, ready, waiting, suspended, zombies
      ensures Valid() && k == PM.Terminate(old(k), i, sig)
    {
      hide Valid, Inv, PM.LeaveActive, PM.Exit, Ends;
      EndsLeaveActive(k, i);
      EndsInv(k, PM.LeaveActive(k, i), {i});
      LeaveActive(i);
      Exit(i, 0x100 | (sig as bv32));
    }

    method KillHandler(i: Slot)
      requires Valid() && Inv(k, {}) && i != 0 && Parked(k.table[i])
      modifies this, table, next, ready, waiting, suspended, zombies
      ensures Valid() && k == PM.KillHandler(old(k), i)
    {
      hide Valid, Inv, PM.LeaveActive, PM.Bury, PM.GiveWay, PM.Notify, PM.SwitchParent, PM.KillGroup, PM.GetProcess,
        Spared, OffQueues, Without;
      KillParts(k, i);
      var p := Entry(i);
      var pid := p.pid;
      if pid == 0 || pid == 1 {
        return;
      }
      var status: bv32 := 0x100 | ((SIGKILL as bv32) & 0x7f);
      SetEntry(i, p.(status := status));
      var parent := GetProcess(p.ppid);
      Notify(parent, status);
      p := Entry(i);
      if p.state == Stopped {
        var _ := Unlink(SuspendedList, i);
      } else {
        LeaveActive(i);
        GiveWay(i, parent);
      }
      SwitchParent(pid, 1, false);
      KillGroup(pid, SIGKILL, {i});
      p := Entry(i);
      SetEntry(i, p.(state := Killed, event := pid, daemon := false));
      Bury(i);
    }

    method ReportStop(i: Slot, parent: Link)
      requires Valid()
      modifies table, this`k
      ensures Valid() && k == PM.ReportStop(old(k), i, parent)
    {
      hide Valid, PM.Notify, PM.NewJob;
      if parent != NIL {
        var pp := Entry(parent);
        if pp.state != Killed {
          var p := Entry(i);
          Notify(parent, p.status);
          pp := Entry(parent);
          p := Entry(i);
          SetEntry(parent, pp.(wpid := p.pid));
          p := Entry(i);
          if p.jobSpec == 0 {
            NewJob(parent, i);
          }
        }
      }
    }

    method Suspend(i: Slot)
      requires Valid() && OffQueues(k, i)
      modifies this, table, next, ready, waiting, suspended, zombies
      ensures Valid() && k == PM.Suspend(old(k), i)
    {
      hide Valid, PM.WakeUp;
      var p := Entry(i);
      SetEntry(i, p.(state := Stopped));
      PushBack(SuspendedList, i);
      WakeUp(STATE_CHANGE);
    }

    method StopHandler(i: Slot)
      requires Valid() && Inv(k, {}) && i != 0 && Parked(k.table[i])
      modifies this, table, next, ready, waiting, suspended, zombies
      ensures Valid() && k == PM.StopHandler(old(k), i)
    {
      hide Valid, Inv, PM.LeaveActive, PM.GiveWay, PM.ReportStop, PM.Suspend, PM.GetProcess, OffQueues, StoppedStatus;
      StopParts(k, i);
      var p := Entry(i);
      if p.pid == 0 || p.pid == 1 || p.state == Stopped {
        return;
      }
      LeaveActive(i);
      p := Entry(i);
      SetEntry(i, p.(status := StoppedStatus(p.status)));
      var parent := GetProcess(p.ppid);
      ReportStop(i, parent);
      GiveWay(i, parent);
      Suspend(i);
    }

    method Resume(i: Slot)
      requires Valid() && i in k.suspended
      modifies this, table, next, ready, waiting, suspended, zombies
      ensures Valid() && k == PM.Resume(old(k), i)
    {
      hide Valid, Without;
      var _ := Unlink(SuspendedList, i);
      var p := Entry(i);
      if p.event == NONE {
        MakeReady(i);
      } else {
        if !p.daemon && p.event == DAEMON_INPUT {
          SetEntry(i, p.(event := KEYBOARD_INPUT));
        } else {
          SameEntry(k, i);
        }
        MakeAsleep(i);
      }
    }

    /** The foreground process goes to sleep until the resumed one gives way. */
    method PauseForeground()
      requires Valid() && k.foreground != NIL && PauseIsSafe(k)
      modifies this, table, next, ready, waiting, suspended, zombies
      ensures Valid() && k == PM.PauseForeground(old(k))
    {
      Fields();
      OnWaitListOnly(k);
      hide Valid, Without, OffQueues, Pushed, Disjoint, PauseIsSafe;
      var f: Slot := foreground;
      var fp := Entry(f);
      SetEntry(f, fp.(state := Asleep, event := FG_PAUSED));
      var queued := Has(ReadyQue, f);
      if queued {
        var _ := Unlink(ReadyQue, f);
        OffWaitList(k, f);
      }
      Push(WaitList, f);
    }

    /** SIGCONT. The precondition rules out the branch that breaks the queues. */
    method ContinueHandler(i: Slot)
      requires Valid() && Inv(k, {}) && i != 0 && !k.faulted && !PM.ContinueHandler(k, i).faulted
      modifies this, table, next, ready, waiting, suspended, zombies
      ensures Valid() && k == PM.ContinueHandler(old(k), i)
    {
      hide Valid, Inv, PM.Resume, PM.PauseForeground, PM.FinishContinue;
      var p := Entry(i);
      if p.pid == 0 || p.pid == 1 || p.state != Stopped {
        return;
      }
      StoppedJob(k, i, {});
      Resume(i);
      p := Entry(i);
      if !p.daemon {
        Fields();
        if foreground != NIL {
          PauseForeground();
        }
        SetForeground(i);
      }
      FinishContinue(i);
    }

    method FinishContinue(i: Slot)
      requires Valid()
      modifies table, this`k
      ensures Valid() && k == PM.FinishContinue(old(k), i)
    {
      hide Valid, PM.GetProcess, ContinuedStatus;
      var p := Entry(i);
      SetEntry(i, p.(status := ContinuedStatus(p.status)));
      var parent := GetProcess(p.ppid);
      if parent != NIL {
        var pp := Entry(parent);
        if pp.state != Killed {
          SetEntry(parent, pp.(signals := pp.signals + {SIGCHLD}));
        }
      }
    }

    method DefaultHandler(i: Slot, sig: Signal)
      requires Valid() && Inv(k, {}) && i != 0 && Parked(k.table[i])
      requires k.table[i].state == Stopped ==> sig == SIGKILL || sig == SIGCONT
      requires !k.faulted && !PM.DefaultHandler(k, i, sig).faulted
      modifies this, table, next, ready, waiting, suspended, zombies
      ensures Valid() && k == PM.DefaultHandler(old(k), i, sig)
    {
      hide Valid, Inv, PM.Terminate, PM.KillHandler, PM.StopHandler, PM.ContinueHandler;
      if sig == SIGHUP || sig == SIGINT || sig == SIGABRT || sig == SIGTERM {
        Terminate(i, sig);
      } else if sig == SIGKILL {
        KillHandler(i);
      } else if sig == SIGSTOP || sig == SIGTSTP {
        StopHandler(i);
      } else if sig == SIGCONT {
        ContinueHandler(i);
      }
    }

    // ----- check_pending_signals

    method Handle(i: Slot, sig: Signal)
      requires Valid() && Inv(k, {}) && i != 0 && Parked(k.table[i])
      requires k.table[i].state == Stopped ==> sig == SIGKILL || sig == SIGCONT
      requires !k.faulted && !PM.Handle(k, i, sig).faulted
      modifies this, table, next, ready, waiting, suspended, zombies
      ensures Valid() && k == PM.Handle(old(k), i, sig)
    {
      hide Valid, Inv, PM.DefaultHandler, PM.ContinueHandler, DefaultHandlers;
      var p := Entry(i);
      match p.handlers[sig]
      case NoHandler =>
      case KernelHandler => DefaultHandler(i, sig);
      case UserHandler(_) =>
        if sig == SIGCONT {
          ContinueHandler(i);
        }
        p := Entry(i);
        SetEntry(i, p.(handlers := p.handlers[sig := DefaultHandlers()[sig]]));
    }

    method SleepAgain(i: Slot, userHandled: bool)
      requires Valid()
      modifies this, table, next, ready, waiting, suspended, zombies
      ensures Valid() && k == PM.SleepAgain(old(k), i, userHandled)
    {
      hide Valid, Without, OffQueues;
      var queued := Has(ReadyQue, i);
      var p := Entry(i);
      if queued && p.event != NONE && !userHandled {
        var _ := Unlink(ReadyQue, i);
        MakeAsleep(i);
      }
    }

    /** check_pending_signals for a process that is not running. */
    method CheckPending(i: Slot)
      requires Valid() && Inv(k, {}) && i != 0 && k.table[i].state != Running && k.table[i].state != Init
      requires !k.faulted && !PM.CheckPending(k, i).faulted
      modifies this, table, next, ready, waiting, suspended, zombies
      ensures Valid() && k == PM.CheckPending(old(k), i)
    {
      hide Valid, Inv, CheckFrom, PM.Handle, PM.SleepAgain, Toggle;
      for n := 0 to TOTAL_SIGNALS
        invariant Valid() && Inv(k, {}) && k.table[i].state != Running && k.table[i].state != Init
        invariant !k.faulted && CheckFrom(k, i, n) == CheckFrom(old(k), i, 0)
      {
        CheckStep(k, i, n);
        var p := Entry(i);
        if p.state == Unused || p.state == Killed {
          return;
        }
        if n in p.signals && !(p.state == Stopped && n != SIGKILL && n != SIGCONT) {
          Handle(i, n);
          var q := Entry(i);
          SetEntry(i, q.(signals := Toggle(q.signals, n)));
          SleepAgain(i, p.handlers[n].UserHandler?);
        }
      }
      CheckEnd(k, i);
    }

    // ----- schedule

    /** The saved link stays valid although the check may take the job off the list. */
    method CheckSuspended()
      requires Valid() && Inv(k, {}) && !k.faulted && !Scheduler.CheckSuspended(k, k.suspended).faulted
      modifies this, table, next, ready, waiting, suspended, zombies
      ensures Valid() && k == Scheduler.CheckSuspended(old(k), old(k).suspended)
    {
      hide Valid, Inv, PM.CheckPending, Steady, Without, Scheduler.CheckSuspended;
      ghost var jobs, done := k.suspended, [];
      var job := Front(SuspendedList);
      assert k.suspended == [] + jobs;
      while job != NIL
        invariant Valid() && Inv(k, {}) && !k.faulted
        invariant k.suspended == done + jobs && job == (if jobs == [] then NIL else jobs[0])
        invariant Scheduler.CheckSuspended(k, jobs) == Scheduler.CheckSuspended(old(k), old(k).suspended)
        decreases |jobs|
      {
        var nextJob := NextJob(job, done, jobs);
        done := CheckSuspendedStep(k, jobs, done);
        CheckPending(job);
        jobs := jobs[1..];
        job := nextJob;
      }
      CheckSuspendedNone(k);
    }

    /** The loop ends with the queue empty or with a checked process still at its head. */
    method CheckReady()
      requires Valid() && Inv(k, {}) && !k.faulted && !Scheduler.CheckReady(k).faulted
      modifies this, table, next, ready, waiting, suspended, zombies
      ensures Valid() && k == Scheduler.CheckReady(old(k))
    {
      hide Valid, Inv, PM.CheckPending, Steady, Live, Scheduler.CheckReady, NoRevival;
      var head := Front(ReadyQue);
      while head != NIL
        invariant Valid() && Inv(k, {}) && !k.faulted && head == (if k.ready == [] then NIL else k.ready[0])
        invariant Scheduler.CheckReady(k) == Scheduler.CheckReady(old(k))
        decreases |Live(k)|, |k.ready|
      {
        CheckReadyStep(k);
        CheckPending(head);
        var now := Front(ReadyQue);
        if now == head {
          return;
        }
        head := now;
      }
      CheckReadyNone(k);
    }

    /** The scheduler has chosen `i`. */
    method SetCurrent(i: Slot)
      requires Valid()
      modifies this`current, this`k
      ensures Valid() && k == old(k).(current := i, schedules := old(k).schedules + 1)
    {
      current := i;
      k := k.(current := i, schedules := k.schedules + 1);
    }

    method RequestShutdown()
      requires Valid()
      modifies this`shutdown, this`k
      ensures Valid() && k == old(k).(shutdown := true)
    {
      shutdown := true;
      k := k.(shutdown := true);
    }

    /** The end of schedule(): the head of the ready queue runs, or else the idle process. */
    method Dispatch()
      requires Valid()
      modifies this, table, ready, waiting, suspended, zombies
      ensures Valid() && k == Scheduler.Dispatch(old(k))
    {
      hide Valid, OffQueues;
      var node := PopReady();
      if node == NIL {
        var waiter := Front(WaitList);
        var idle := Entry(0);
        if waiter == NIL && SIGTERM in idle.signals {
          RequestShutdown();
        }
      }
      var process: Slot := if node == NIL then 0 else node;
      var p := Entry(process);
      SetEntry(process, p.(state := Running));
      SetCurrent(process);
      Fields();
      if !p.daemon && foreground == NIL {
        SetForeground(process);
      }
    }

    method Schedule()
      requires Valid() && Inv(k, {}) && !k.faulted && !Scheduler.Schedule(k).faulted
      modifies this, table, next, ready, waiting, suspended, zombies
      ensures Valid() && k == Scheduler.Schedule(old(k))
    {
      hide Valid, Inv, Steady, Scheduler.CheckSuspended, Scheduler.CheckReady, Scheduler.Dispatch;
      SuspendedJobs(k);
      SteadyCheckSuspended(k, k.suspended);
      SteadyInv(k, Scheduler.CheckSuspended(k, k.suspended));
      CheckSuspended();
      CheckReady();
      Dispatch();
    }

    // ----- entry points

    /** The timer interrupt: wake the sleepers and give up the CPU if anybody is ready. */
    method Timer()
      requires Valid() && Good(k) && !k.faulted && !TimerStep(k).faulted
      modifies this, table, next, ready, waiting, suspended, zombies
      ensures Valid() && k == TimerStep(old(k))
    {
      hide Valid, Inv, PM.WakeUp, Scheduler.Schedule, Good, OffQueues, Follows, Parking;
      TimerParts(k);
      WakeUp(SLEEP_SYSCALL);
      var head := Front(ReadyQue);
      if head == NIL {
        return;
      }
      Fields();
      var i := current;
      var p := Entry(i);
      if p.pid != 0 {
        CurrentOff(k);
        MakeReady(i);
      } else {
        SetEntry(i, p.(state := Ready));
      }
      Schedule();
    }

    method Sleep(event: int)
      requires Valid() && Good(k) && !k.faulted && k.current != 0 && !SleepStep(k, event).faulted
      modifies this, table, next, ready, waiting, suspended, zombies
      ensures Valid() && k == SleepStep(old(k), event)
    {
      hide Valid, Inv, Scheduler.Schedule, Good, Follows, Parking;
      FallAsleepReady(k, event);
      CurrentOff(k);
      Fields();
      var i := current;
      var p := Entry(i);
      SetEntry(i, p.(event := event));
      MakeAsleep(i);
      Schedule();
    }

    /** exit as a system call, which never returns to its caller. */
    method ExitCall(status: bv32)
      requires Valid() && Good(k) && !k.faulted && k.current != 0 && !ExitStep(k, status).faulted
      modifies this, table, next, ready, waiting, suspended, zombies
      ensures Valid() && k == ExitStep(old(k), status)
    {
      hide Valid, Inv, Scheduler.Schedule, Good, PM.Exit, OffQueues, Follows, Parking;
      ExitReady(k, ExitStatus(status));
      ExitCallParts(k);
      Fields();
      Exit(current, (status & 0xff) << 8);
      Schedule();
    }

    /** Ctrl-C and Ctrl-Z. */
    method ControlKey(sig: Signal)
      requires Valid() && Inv(k, {}) && sig != SIGHUP
      modifies this, table, next, ready, waiting, suspended, zombies
      ensures Valid() && k == Interrupt(old(k), sig)
    {
      hide Valid, Inv, PM.Kill, PM.GetProcess;
      Fields();
      if foreground != NIL {
        var f := Entry(foreground);
        if !(f.state == Unused || f.state == Killed) {
          var _ := Kill(f.ppid, f.pid, sig);
        }
      }
    }

    method BringForward(x: Slot)
      requires Valid()
      requires if k.table[x].state == Asleep then x in k.waiting && x !in k.ready else x in k.ready
      modifies this, table, next, ready, waiting, suspended, zombies
      ensures Valid() && k == ProcessCalls.BringForward(old(k), x)
    {
      hide Valid, Without;
      var p := Entry(x);
      if p.event == DAEMON_INPUT {
        SetEntry(x, p.(event := KEYBOARD_INPUT));
      } else {
        SameEntry(k, x);
      }
      p := Entry(x);
      if p.state == Asleep {
        var _ := Unlink(WaitList, x);
        SetEntry(x, p.(state := Ready));
      }
      SetForeground(x);
      var queued := Has(ReadyQue, x);
      if !queued {
        Enqueue(x);
      }
    }

    method MoveToFore(x: Slot)
      requires Valid() && Inv(k, {}) && x != 0 && Parked(k.table[x])
      modifies this, table, next, ready, waiting, suspended, zombies
      ensures Valid() && k == ProcessCalls.MoveToFore(old(k), x)
    {
      hide Valid, Inv, ProcessCalls.BringForward;
      ParkedSlot(k, x);
      var p := Entry(x);
      SetEntry(x, p.(daemon := false));
      if p.state != Stopped {
        BringForward(x);
      }
    }

    /** A push on the ready queue that leaves the state alone. */
    method Enqueue(x: Slot)
      requires Valid() && OffQueues(k, x)
      modifies this, table, next, ready, waiting, suspended, zombies
      ensures Valid() && k == ProcessCalls.Enqueue(old(k), x)
    {
      StampOnly(x);
      hide Valid;
      PushBack(ReadyQue, x);
    }

    method StampOnly(x: Slot)
      requires Valid()
      modifies table, this`arrivals, this`k
      ensures Valid()
      ensures k == Put(old(k), x, old(k).table[x].(arrival := old(k).arrivals)).(arrivals := old(k).arrivals + 1)
    {
      hide Linked;
      table[x] := table[x].(arrival := arrivals);
      arrivals := arrivals + 1;
      k := Put(k, x, k.table[x].(arrival := k.arrivals)).(arrivals := k.arrivals + 1);
    }

    method MoveToBack(jobSpec: int)
      requires Valid()
      modifies table, this`k
      ensures Valid() && k == BackgroundStep(old(k), jobSpec)
    {
      hide Valid, PM.FindJob;
      Fields();
      var c := Entry(current);
      var x := FindJob(jobSpec, c.ppid);
      if x == NIL {
        return;
      }
      var p := Entry(x);
      if p.state != Stopped {
        return;
      }
      SetEntry(x, p.(daemon := true,
                     event := if p.event == KEYBOARD_INPUT || p.event == FG_PAUSED then DAEMON_INPUT else p.event));
    }

    method RegisterHandler(sig: int, handler: Handler)
      requires Valid()
      modifies table, this`k
      ensures Valid() && k == RegisterStep(old(k), sig, handler)
      ensures forall i: Slot :: Armed(old(k).table[i].handlers) ==> Armed(k.table[i].handlers)
    {
      hide Valid;
      if sig > 0 && sig < TOTAL_SIGNALS - 1 && !(sig == SIGKILL || sig == SIGSTOP) {
        Fields();
        var p := Entry(current);
        SetEntry(current, p.(handlers := p.handlers[sig := handler]));
      }
    }

    // ----- fork

    method FindUnusedSlot() returns (r: Link)
      requires Valid()
      ensures r == FindUnused(k.table, 1)
    {
      hide Valid;
      for i := 1 to TABLE_SIZE
        invariant FindUnused(k.table, 1) == FindUnused(k.table, i)
      {
        var p := Entry(i);
        if p.state == Unused {
          return i;
        }
      }
      return NIL;
    }

    /** The slot is cleared and given the next PID. */
    method Allocate(i: Slot)
      requires Valid()
      modifies table, this`nextPid, this`k
      ensures Valid() && k == ProcessCalls.Allocate(old(k), i)
    {
      hide Linked, Disjoint;
      DisjointAllocate(k, i);
      table[i] := Blank().(state := Init, event := NONE, pid := nextPid);
      nextPid := nextPid + 1;
      k := ProcessCalls.Allocate(k, i);
    }

    method DropForeground()
      requires Valid()
      modifies this`foreground, this`k
      ensures Valid() && k == ProcessCalls.DropForeground(old(k))
    {
      Fields();
      hide Valid;
      if foreground != NIL {
        var f := Entry(foreground);
        var c := Entry(current);
        if c.pid == f.pid {
          SetForeground(NIL);
        }
      }
    }

    /** fork; `copied` says whether the parent's memory could be copied. The child's PID, or -1. */
    method Fork(copied: bool) returns (pid: int)
      requires Valid() && Good(k) && !k.faulted
      modifies this, table, next, ready, waiting, suspended, zombies
      ensures Valid() && k == ForkStep(old(k), copied)
      ensures pid == if copied && FindUnused(old(k).table, 1) != NIL then old(k).nextPid else -1
    {
      hide Valid, Good, FindUnused, DefaultHandlers;
      var i := FindUnusedSlot();
      if i == NIL {
        return -1;
      }
      NewSlotOff(k, i);
      Allocate(i);
      var p := Entry(i);
      Fields();
      var c := Entry(current);
      SetEntry(i, p.(ppid := c.pid));
      DropForeground();
      if !copied {
        return -1;
      }
      p := Entry(i);
      SetEntry(i, p.(signals := {}, handlers := DefaultHandlers()));
      pid := p.pid;
      MakeReady(i);
    }

    /** exec meets the argument "&". */
    method BecomeJob()
      requires Valid() && Good(k) && !k.faulted && k.current != 0
      modifies table, this`foreground, this`k
      ensures Valid() && k == ProcessCalls.Detach(old(k))
    {
      hide Valid, Good, PM.NewJob, ProcessCalls.DropForeground, PM.GetProcess;
      Fields();
      var p := Entry(current);
      var parent := GetProcess(p.ppid);
      if parent != NIL {
        var pp := Entry(parent);
        if pp.state != Killed {
          NewJob(parent, current);
          SameCurrent(old(k), parent);
        }
      }
      Fields();
      p := Entry(current);
      SetEntry(current, p.(daemon := true));
      DropForeground();
    }

    /** The process side of exec: a job in the background, and default handlers for the new
        program; if it cannot be loaded there is nothing left to return to. */
    method Exec(found: bool, background: bool, loaded: bool)
      requires Valid() && Good(k) && !k.faulted && k.current != 0 && !ExecStep(k, found, background, loaded).faulted
      modifies this, table, next, ready, waiting, suspended, zombies
      ensures Valid() && k == ExecStep(old(k), found, background, loaded)
    {
      hide Valid, Good, ProcessCalls.Detach, ExitStep, DefaultHandlers;
      if !found {
        return;
      }
      GoodDetach(k);
      if background {
        BecomeJob();
      }
      if loaded {
        Fields();
        var p := Entry(current);
        SetEntry(current, p.(signals := {}, handlers := DefaultHandlers()));
      } else {
        ExitCall(1);
      }
    }

    // ----- wait

    method SetWpid(pid: int)
      requires Valid()
      modifies table, this`k
      ensures Valid() && k == ProcessWait.SetWpid(old(k), pid)
    {
      hide Valid;
      Fields();
      var c := Entry(current);
      SetEntry(current, c.(wpid := pid));
    }

    method StoppedChild() returns (r: Link)
      requires Valid()
      ensures r == ProcessWait.StoppedChild(k)
    {
      hide Valid, PM.GetProcess;
      Fields();
      var c := Entry(current);
      if c.wpid > 1 {
        r := GetProcess(c.wpid);
        if r != NIL {
          var p := Entry(r);
          var listed := Has(SuspendedList, r);
          if p.state == Stopped && listed {
            return r;
          }
        }
      }
      return NIL;
    }

    method FosterOne(z: Slot)
      requires Valid()
      modifies table, this`k
      ensures Valid() && k == ProcessWait.FosterOne(old(k), z)
    {
      hide Valid, PM.GetProcess;
      var p := Entry(z);
      if p.ppid != 1 {
        var parent := GetProcess(p.ppid);
        if parent == NIL {
          SetEntry(z, p.(ppid := 1));
        } else {
          var pp := Entry(parent);
          if pp.wpid >= 0 && p.pid != pp.wpid {
            SetEntry(z, p.(ppid := 1));
          }
        }
      }
    }

    /** Init's walk over the zombies. */
    method Foster()
      requires Valid()
      modifies table, this`k
      ensures Valid() && k == ProcessWait.Foster(old(k), old(k).zombies)
    {
      hide Valid, ProcessWait.FosterOne, ProcessWait.Foster;
      ghost var n := 0;
      var z := Front(ZombieList);
      assert k.zombies[0..] == k.zombies;
      while z != NIL
        invariant Valid() && k.zombies == old(k).zombies && 0 <= n <= |k.zombies|
        invariant z == if n < |k.zombies| then k.zombies[n] else NIL
        invariant ProcessWait.Foster(k, k.zombies[n..]) == ProcessWait.Foster(old(k), old(k).zombies)
        decreases |k.zombies| - n
      {
        FosterStep(k, n);
        FosterOne(z);
        z := Next(z, ZombieList, n);
        n := n + 1;
      }
      FosterEnd(k, n);
    }

    /** Whether the caller has a child to wait for, and the event to look for among the zombies. */
    method LookForChild(pid: int) returns (hasChild: bool, event: int)
      requires Valid()
      ensures hasChild == HasChild(k, pid)
      ensures hasChild ==> event == WaitTarget(k, pid)
    {
      hide Valid, FirstZombieChild;
      Fields();
      hasChild, event := false, pid;
      if pid == -1 {
        hasChild, event := LookForAny();
        return;
      }
      var c := Entry(current);
      var child := GetProcess(pid);
      if child != NIL {
        var p := Entry(child);
        hasChild := p.ppid == c.pid;
      }
    }

    method LookForAny() returns (hasChild: bool, event: int)
      requires Valid()
      ensures hasChild == ChildBelow(k, TABLE_SIZE)
      ensures var z := FirstZombieChild(k, 1); event == if z == NIL then -1 else k.table[z].pid
    {
      hide Valid, ChildBelow, FirstZombieChild;
      Fields();
      hasChild := false;
      var c := Entry(current);
      ChildBelowNone(k);
      for i := 1 to TABLE_SIZE
        invariant hasChild == ChildBelow(k, i)
        invariant FirstZombieChild(k, 1) == FirstZombieChild(k, i)
      {
        ChildBelowStep(k, i);
        var p := Entry(i);
        if p.state != Unused && p.ppid == c.pid {
          hasChild := true;
          var dead := Has(ZombieList, i);
          if dead {
            return true, p.pid;
          }
        }
      }
      FirstZombieEnd(k);
      return hasChild, -1;
    }

    method Release(w: Slot)
      requires Valid()
      modifies table, this`k
      ensures Valid()
      ensures k == Put(old(k), w, old(k).table[w].(state := Unused)).(reaped := old(k).reaped + [old(k).table[w].pid])
    {
      hide Linked;
      table[w] := table[w].(state := Unused);
      k := Put(k, w, k.table[w].(state := Unused)).(reaped := k.reaped + [k.table[w].pid]);
    }

    /** One pass of wait's loop; a pass that blocks ends in schedule(). */
    method Wait(pid: int, noHang: bool, untraced: bool, resumed: bool) returns (r: int)
      requires Valid() && Good(k) && !k.faulted && k.current != 0
      requires !WaitStep(k, pid, noHang, untraced, resumed).faulted
      modifies this, table, next, ready, waiting, suspended, zombies
      ensures Valid() && k == WaitStep(old(k), pid, noHang, untraced, resumed)
      ensures pid == 0 || pid < -1 ==> r == -1
      ensures pid != 0 && pid >= -1 ==>
        var k0 := if resumed then old(k) else ProcessWait.SetWpid(old(k), pid);
        match WaitEnding(k0, pid, noHang, untraced)
        case Acknowledged(job) => r == k0.table[job].pid
        case NoChild => r == -1
        case Reaps(w) => r == WaitLook(k0, pid).table[w].pid
        case WouldBlock => r == 0
        case Blocks => true
    {
      hide Valid, Good, ProcessWait.SetWpid, ProcessWait.StoppedChild, ProcessWait.Foster, HasChild, WaitTarget,
        SleepStep,
        FirstWaiter, Without, OffQueues, PM.GetProcess;
      r := -1;
      if pid == 0 || pid < -1 {
        return;
      }
      GoodSetWpid(k, pid);
      if !resumed {
        SetWpid(pid);
      }
      ghost var k0 := k;
      GoodLook(k0, pid);
      var stopped := StoppedChild();
      if stopped != NIL {
        var p := Entry(stopped);
        SetWpid(pid);
        if untraced {
          return p.pid;
        }
      }
      Fields();
      var c := Entry(current);
      if c.pid == 1 {
        Foster();
      }
      assert k == WaitLook(k0, pid);
      r := WaitTail(pid, noHang);
    }

    /** The search for a zombie, from a state in which stopped children are dealt with. */
    method WaitTail(pid: int, noHang: bool) returns (r: int)
      requires Valid() && Good(k) && !k.faulted && k.current != 0 && pid != 0 && pid >= -1
      requires HasChild(k, pid) && ZombieFor(k, WaitTarget(k, pid)) == NIL && !noHang ==>
        !SleepStep(k, STATE_CHANGE).faulted
      modifies this, table, next, ready, waiting, suspended, zombies
      ensures Valid()
      ensures if !HasChild(old(k), pid) then k == old(k) && r == -1
        else
          var w := ZombieFor(old(k), WaitTarget(old(k), pid));
          if w != NIL then k == Reap(old(k), w) && r == old(k).table[w].pid
          else if noHang then k == old(k) && r == 0
          else k == SleepStep(old(k), STATE_CHANGE)
    {
      hide Valid, Good, HasChild, WaitTarget, SleepStep, FirstWaiter, Without, OffQueues;
      r := 0;
      var hasChild, event := LookForChild(pid);
      if !hasChild {
        return -1;
      }
      ZombieEvent(k, event);
      var w, _ := TakeWaiter(ZombieList, NIL, event);
      if w != NIL {
        Release(w);
        return event;
      }
      if noHang {
        return 0;
      }
      Sleep(STATE_CHANGE);
    }
  }

  /** One iteration of the loop over the sender's children. */
  lemma KillGroupStep(k: KState, sender: int, sig: Signal, i: Slot, limbo: set<Slot>)
    requires 2 <= i && Inv(k, limbo) && Spared(k, sender, limbo)
    ensures var p := k.table[i];
      if p.pid != sender && Alive(p) && p.ppid == sender then
        && (p.state == Asleep ==> i in k.waiting)
        && Inv(PM.Deliver(k, i, sig), limbo) && Spared(PM.Deliver(k, i, sig), sender, limbo)
        && KillGroupFrom(k, sender, sig, i) == KillGroupFrom(PM.Deliver(k, i, sig), sender, sig, i + 1)
      else KillGroupFrom(k, sender, sig, i) == KillGroupFrom(k, sender, sig, i + 1)
  {
    hide Inv, Spared, PM.Deliver, Calm;
    var p := k.table[i];
    if p.pid != sender && Alive(p) && p.ppid == sender {
      SparedSlot(k, i, sender, limbo);
      AsleepQueued(k, i, limbo);
      CalmDeliver(k, i, sig, limbo);
      CalmInv(k, PM.Deliver(k, i, sig), limbo);
      SparedStays(k, PM.Deliver(k, i, sig), sender, limbo);
    }
  }

  lemma KillGroupEnd(k: KState, sender: int, sig: Signal)
    ensures KillGroupFrom(k, sender, sig, TABLE_SIZE) == k
  {
  }

  lemma KillAllStep(k: KState, sender: int, sig: Signal, i: Slot)
    requires 2 <= i && Inv(k, {})
    ensures var p := k.table[i];
      if p.pid != sender && Alive(p) then
        && (p.state == Asleep ==> i in k.waiting) && Inv(PM.Deliver(k, i, sig), {})
        && KillAllFrom(k, sender, sig, i) == KillAllFrom(PM.Deliver(k, i, sig), sender, sig, i + 1)
      else KillAllFrom(k, sender, sig, i) == KillAllFrom(k, sender, sig, i + 1)
  {
    hide Inv, PM.Deliver, Calm;
    if k.table[i].pid != sender && Alive(k.table[i]) {
      AsleepQueued(k, i, {});
      CalmDeliver(k, i, sig, {});
      CalmInv(k, PM.Deliver(k, i, sig), {});
    }
  }

  lemma KillAllEnd(k: KState, sender: int, sig: Signal)
    ensures KillAllFrom(k, sender, sig, TABLE_SIZE) == k
  {
  }

  lemma SwitchParentStep(k: KState, parent: Slot, old_: int, new_: int, transferJobs: bool, i: Slot)
    requires 1 <= i
    ensures var k' :=
        if Occupied(k.table[i]) && k.table[i].ppid == old_ then
          var k1 := Put(k, i, k.table[i].(ppid := new_));
          if transferJobs && k.table[i].jobSpec != 0 && k.table[i].state != Stopped
          then PM.NewJob(k1, parent, i) else k1
        else k;
      SwitchParentFrom(k, parent, old_, new_, transferJobs, i)
        == SwitchParentFrom(k', parent, old_, new_, transferJobs, i + 1)
  {
    hide PM.NewJob;
  }

  lemma SwitchParentEnd(k: KState, parent: Slot, old_: int, new_: int, transferJobs: bool)
    ensures SwitchParentFrom(k, parent, old_, new_, transferJobs, TABLE_SIZE) == k
  {
  }

  lemma LinkedNext(head: Link, tail: Link, next: Links, q: seq<Slot>, n: nat)
    requires Linked(head, tail, next, q) && n < |q|
    ensures next[q[n]] == if n + 1 < |q| then q[n+1] else NIL
  {
  }

  lemma EndJobParts(k: KState, j: Slot, limbo: set<Slot>)
    requires Inv(k, limbo) && j !in limbo && k.table[j].state == Stopped
    requires forall i :: i in limbo ==> !Alive(k.table[i])
    ensures var k1 := Put(k, j, k.table[j].(state := Killed, event := k.table[j].pid));
      && Inv(k1, limbo + {j}) && Spared(k1, k.table[j].pid, limbo + {j})
      && j in PM.KillGroup(k1, k.table[j].pid, SIGTERM).suspended
  {
    hide Inv, Calm, Ends, Without, KillGroupFrom;
    StoppedJob(k, j, limbo);
    InvWeaken(k, j, limbo);
    var q := k.table[j].(state := Killed, event := k.table[j].pid);
    var k1 := Put(k, j, q);
    EndsPut(k, j, q, limbo + {j});
    EndsInv(k, k1, limbo + {j});
    assert Spared(k1, q.pid, limbo + {j});
    CalmKillGroupFrom(k1, q.pid, SIGTERM, 2, limbo + {j});
    CalmQueues(k1, PM.KillGroup(k1, q.pid, SIGTERM), limbo + {j});
  }

  lemma EndJobsNone(k: KState, pid: int)
    ensures PM.EndJobs(k, pid, []) == k
  {
  }

  /** One iteration of the loop over the suspended list. */
  lemma EndJobsStep(k: KState, pid: int, jobs: seq<Slot>, done: seq<Slot>, limbo: set<Slot>)
    requires Inv(k, limbo) && (forall i :: i in limbo ==> !Alive(k.table[i])) && jobs != []
      && k.suspended == done + jobs
    ensures var j := jobs[0];
      if k.table[j].ppid == pid && k.table[j].state == Stopped then
        var k' := PM.EndJob(k, j);
        && j !in limbo && Inv(k', limbo) && (forall i :: i in limbo ==> !Alive(k'.table[i]))
        && k'.suspended == done + jobs[1..] && PM.EndJobs(k, pid, jobs) == PM.EndJobs(k', pid, jobs[1..])
      else
        && k.suspended == (done + [j]) + jobs[1..]
        && PM.EndJobs(k, pid, jobs) == PM.EndJobs(k, pid, jobs[1..])
  {
    hide Inv, PM.EndJob, Ends, Without;
    var j := jobs[0];
    assert jobs == [j] + jobs[1..];
    if k.table[j].ppid == pid && k.table[j].state == Stopped {
      EndsJob(k, j, limbo);
      var k' := PM.EndJob(k, j);
      EndsInv(k, k', limbo);
      forall i | i in limbo
        ensures !Alive(k'.table[i])
      {
        EndsEntry(k, k', limbo, i);
      }
      EndJobSuspended(k, j, limbo);
      SuspendedNoDup(k, limbo);
      assert k.suspended == done + [j] + jobs[1..];
      WithoutMiddle(done, j, jobs[1..]);
    }
  }

  lemma SuspendedNoDup(k: KState, limbo: set<Slot>)
    requires Inv(k, limbo)
    ensures NoDup(k.suspended)
  {
  }

  lemma EndJobSuspended(k: KState, j: Slot, limbo: set<Slot>)
    requires Inv(k, limbo) && j !in limbo && k.table[j].state == Stopped
    requires forall i :: i in limbo ==> !Alive(k.table[i])
    ensures PM.EndJob(k, j).suspended == Without(k.suspended, j)
  {
    hide Inv, Spared, Calm, Without, KillGroupFrom;
    EndJobParts(k, j, limbo);
    var k1 := Put(k, j, k.table[j].(state := Killed, event := k.table[j].pid));
    CalmKillGroupFrom(k1, k.table[j].pid, SIGTERM, 2, limbo + {j});
    CalmQueues(k1, PM.KillGroup(k1, k.table[j].pid, SIGTERM), limbo + {j});
  }

  /** What exit needs to know on its way. */
  lemma ExitParts(k: KState, i: Slot, status: bv32)
    requires Inv(k, {i}) && i != 0 && Alive(k.table[i]) && k.table[i].state != Init && i !in k.suspended
    ensures var k1 := MarkDead(k, i, status); var parent := ParentOf(k1, i);
      var k2 := Announce(k1, i, parent);
      var k3 := PM.EndJobs(k2, k.table[i].pid, k2.suspended);
      var k5 := PM.GiveWay(PM.SwitchParent(k3, k.table[i].pid, 1, true), i, parent);
      Inv(k2, {i}) && !Alive(k2.table[i]) && OffQueues(k5, i)
  {
    hide Inv, Ends, Calm, PM.GiveWay, PM.EndJobs, PM.SwitchParent, Announce, MarkDead;
    var pid := k.table[i].pid;
    var k1 := MarkDead(k, i, status);
    EndsMarkDead(k, i, status);
    EndsInv(k, k1, {i});
    EndsEntry(k, k1, {i}, i);
    var parent := ParentOf(k1, i);
    var k2 := Announce(k1, i, parent);
    EndsAnnounce(k1, i, parent, {i});
    EndsInv(k1, k2, {i});
    EndsEntry(k1, k2, {i}, i);
    var k3 := PM.EndJobs(k2, pid, k2.suspended);
    EndsJobs(k2, pid, k2.suspended, {i});
    EndsInv(k2, k3, {i});
    EndsEntry(k2, k3, {i}, i);
    var k5 := PM.GiveWay(PM.SwitchParent(k3, pid, 1, true), i, parent);
    EndsFarewell(k3, i, parent, pid);
    EndsInv(k3, k5, {i});
    EndsEntry(k3, k5, {i}, i);
    InLimbo(k5, i, {i});
  }

  lemma SameEntry(k: KState, i: Slot)
    ensures Put(k, i, k.table[i].(event := k.table[i].event)) == k
  {
    assert k.table[i := k.table[i].(event := k.table[i].event)] == k.table;
  }

  /** What the SIGKILL handler needs to know on its way. */
  lemma KillParts(k: KState, i: Slot)
    requires Inv(k, {}) && i != 0 && Parked(k.table[i])
    ensures k.table[i].pid > 1 ==>
      var pid := k.table[i].pid; var status := 0x100 | SignalBits(SIGKILL);
      var k1 := Put(k, i, k.table[i].(status := status));
      var parent := ParentOf(k1, i);
      var k2 := PM.Notify(k1, parent, status);
      var k3 := PM.SwitchParent(Withdraw(k2, i, parent), pid, 1, false);
      && Inv(k3, {i}) && Spared(k3, pid, {i})
      && OffQueues(Slay(Withdraw(k2, i, parent), i, pid), i)
    ensures k.table[i].pid >= 0
  {
    PidPositive(k, i);
    if k.table[i].pid > 1 {
      hide Inv, Ends, Calm, Slay, Withdraw, PM.Notify, PM.SwitchParent, PM.GetProcess;
      var pid := k.table[i].pid;
      var status := 0x100 | SignalBits(SIGKILL);
      SlotSound(k, i, {});
      var q := k.table[i].(status := status);
      var k1 := Put(k, i, q);
      CalmPut(k, i, q, {});
      CalmInv(k, k1, {});
      var parent := ParentOf(k1, i);
      EndsNotify(k1, parent, status, {});
      var k2 := PM.Notify(k1, parent, status);
      CalmThen(k, k1, k2, {});
      CalmInv(k, k2, {});
      ParkedStays(k, k2, i);
      WithdrawParts(k2, i, parent, pid);
    }
  }

  lemma WithdrawParts(k2: KState, i: Slot, parent: Link, pid: int)
    requires Inv(k2, {}) && i != 0 && Parked(k2.table[i]) && k2.table[i].pid == pid
    ensures var k3 := Withdraw(k2, i, parent); var k4 := PM.SwitchParent(k3, pid, 1, false);
      Inv(k4, {i}) && Spared(k4, pid, {i}) && OffQueues(Slay(k3, i, pid), i)
  {
    hide Inv, Ends, Calm, Slay, Withdraw, PM.SwitchParent;
    var k3 := Withdraw(k2, i, parent);
    EndsWithdraw(k2, i, parent);
    EndsInv(k2, k3, {i});
    EndsEntry(k2, k3, {i}, i);
    CalmSwitchParent(k3, pid, false, {i});
    var k4 := PM.SwitchParent(k3, pid, 1, false);
    CalmInv(k3, k4, {i});
    CalmEntry(k3, k4, i, {i});
    EndsSlay(k3, i, pid);
    EndsInv(k3, Slay(k3, i, pid), {i});
    EndsEntry(k3, Slay(k3, i, pid), {i}, i);
    InLimbo(Slay(k3, i, pid), i, {i});
  }

  /** What the stop handler needs to know on its way. */
  lemma StopParts(k: KState, i: Slot)
    requires Inv(k, {}) && i != 0 && Parked(k.table[i])
    ensures k.table[i].pid > 1 && k.table[i].state != Stopped ==>
      var k1 := PM.LeaveActive(k, i);
      var k2 := Put(k1, i, k1.table[i].(status := StoppedStatus(k1.table[i].status)));
      var parent := ParentOf(k2, i);
      OffQueues(PM.GiveWay(PM.ReportStop(k2, i, parent), i, parent), i)
    ensures k.table[i].pid >= 0
  {
    PidPositive(k, i);
    if k.table[i].pid > 1 && k.table[i].state != Stopped {
      hide Inv, Sound, Ends, Calm, PM.LeaveActive, PM.ReportStop, PM.GiveWay, PM.GetProcess, StoppedStatus;
      var k1 := PM.LeaveActive(k, i);
      EndsLeaveActive(k, i);
      EndsInv(k, k1, {i});
      SlotSound(k1, i, {i});
      var q := k1.table[i].(status := StoppedStatus(k1.table[i].status));
      var k2 := Put(k1, i, q);
      CalmPut(k1, i, q, {i});
      CalmInv(k1, k2, {i});
      var parent := ParentOf(k2, i);
      var k3 := PM.ReportStop(k2, i, parent);
      CalmReportStop(k2, i, parent, {i});
      CalmThen(k1, k2, k3, {i});
      CalmEnds(k1, k3, {i});
      EndsThen(k, k1, k3, {i}, {i});
      EndsInv(k, k3, {i});
      var k4 := PM.GiveWay(k3, i, parent);
      EndsGiveWay(k3, i, parent, {i});
      EndsThen(k1, k3, k4, {i}, {i});
      EndsInv(k1, k4, {i});
      EndsEntry(k1, k4, {i}, i);
      InLimbo(k4, i, {i});
    }
  }

  /** A fault is never cleared. */
  lemma FaultStays(k: KState, i: Slot, n: nat)
    requires n <= TOTAL_SIGNALS && k.faulted
    ensures CheckFrom(k, i, n) == k
  {
  }

  /** One iteration of the loop over the signals. */
  lemma CheckStep(k: KState, i: Slot, n: Signal)
    requires Inv(k, {}) && i != 0 && k.table[i].state != Running && k.table[i].state != Init && !k.faulted
    ensures var p := k.table[i];
      if !Alive(p) then CheckFrom(k, i, n) == k
      else if n in p.signals && !(p.state == Stopped && n != SIGKILL && n != SIGCONT) then
        var k' := TakeSignal(k, i, n);
        && CheckFrom(k, i, n) == CheckFrom(k', i, n + 1)
        && (!CheckFrom(k, i, n).faulted ==>
              !k'.faulted && Inv(k', {}) && k'.table[i].state != Running && k'.table[i].state != Init
              && !PM.Handle(k, i, n).faulted)
      else CheckFrom(k, i, n) == CheckFrom(k, i, n + 1)
  {
    hide Inv, Steady, PM.Handle, PM.SleepAgain, Toggle;
    var p := k.table[i];
    if Alive(p) && n in p.signals && !(p.state == Stopped && n != SIGKILL && n != SIGCONT) {
      var k' := TakeSignal(k, i, n);
      SteadyTake(k, i, n);
      SteadyInv(k, k');
      SteadyEntry(k, k', i);
      if k'.faulted {
        FaultStays(k', i, n + 1);
      }
    }
  }

  lemma CheckEnd(k: KState, i: Slot)
    ensures CheckFrom(k, i, TOTAL_SIGNALS) == k
  {
  }

  lemma CheckSuspendedNone(k: KState)
    ensures Scheduler.CheckSuspended(k, []) == k
  {
  }

  /** One iteration of the loop over the suspended list: what is left to visit is still the end
      of the list. */
  lemma CheckSuspendedStep(k: KState, jobs: seq<Slot>, done: seq<Slot>) returns (done': seq<Slot>)
    requires Inv(k, {}) && !k.faulted && jobs != [] && k.suspended == done + jobs
    requires !Scheduler.CheckSuspended(k, jobs).faulted
    ensures var j := jobs[0]; var k' := PM.CheckPending(k, j);
      && j != 0 && k.table[j].state == Stopped && !k'.faulted && Inv(k', {})
      && k'.suspended == done' + jobs[1..]
      && Scheduler.CheckSuspended(k, jobs) == Scheduler.CheckSuspended(k', jobs[1..])
  {
    hide Inv, PM.CheckPending, Scheduler.CheckSuspended;
    assert jobs[0] in k.suspended;
    CheckSuspendedOne(k, jobs);
    done' := RestOfSuspended(k, jobs, done);
  }

  lemma CheckSuspendedOne(k: KState, jobs: seq<Slot>)
    requires Inv(k, {}) && !k.faulted && jobs != [] && jobs[0] in k.suspended
    requires !Scheduler.CheckSuspended(k, jobs).faulted
    ensures var j := jobs[0]; var k' := PM.CheckPending(k, j);
      && j != 0 && k.table[j].state == Stopped && !k'.faulted && Inv(k', {})
      && Scheduler.CheckSuspended(k, jobs) == Scheduler.CheckSuspended(k', jobs[1..])
  {
    hide Inv, PM.CheckPending, Steady;
    var j := jobs[0];
    SuspendedJobs(k);
    SteadyCheckFrom(k, j, 0);
    CheckPendingFrom(k, j);
    SteadyInv(k, PM.CheckPending(k, j));
    CheckSuspendedFault(PM.CheckPending(k, j), jobs[1..]);
  }

  lemma RestOfSuspended(k: KState, jobs: seq<Slot>, done: seq<Slot>) returns (done': seq<Slot>)
    requires Inv(k, {}) && !k.faulted && jobs != [] && k.suspended == done + jobs
    requires !PM.CheckPending(k, jobs[0]).faulted
    ensures PM.CheckPending(k, jobs[0]).suspended == done' + jobs[1..]
  {
    hide Inv, PM.CheckPending, Without, NoDup;
    var j := jobs[0];
    assert j in k.suspended;
    CheckingUnlinksOnlyItself(k, j);
    SuspendedNoDup(k, {});
    assert k.suspended == done + [j] + jobs[1..];
    WithoutMiddle(done, j, jobs[1..]);
    done' := if PM.CheckPending(k, j).suspended == k.suspended then done + [j] else done;
  }

  lemma CheckSuspendedFault(k: KState, jobs: seq<Slot>)
    ensures k.faulted ==> Scheduler.CheckSuspended(k, jobs) == k
  {
  }

  lemma CheckReadyFault(k: KState)
    requires Inv(k, {}) && k.ready != [] && !k.faulted
    ensures var k1 := PM.CheckPending(k, k.ready[0]); k1.faulted ==> Scheduler.CheckReady(k) == k1
  {
    hide Inv, PM.CheckPending, NoRevival;
  }

  lemma CheckPendingFrom(k: KState, j: Slot)
    ensures PM.CheckPending(k, j) == CheckFrom(k, j, 0)
  {
  }

  lemma CheckReadyNone(k: KState)
    requires Inv(k, {}) && k.ready == []
    ensures Scheduler.CheckReady(k) == k
  {
  }

  lemma CheckReadyStep(k: KState)
    requires Inv(k, {}) && k.ready != [] && !k.faulted && !Scheduler.CheckReady(k).faulted
    ensures var c := k.ready[0]; var k1 := PM.CheckPending(k, c);
      && c != 0 && k.table[c].state != Running && k.table[c].state != Init
      && !k1.faulted && Inv(k1, {})
      && (k1.ready != [] && k1.ready[0] == c ==> Scheduler.CheckReady(k) == k1)
      && (!(k1.ready != [] && k1.ready[0] == c) ==>
            && Scheduler.CheckReady(k) == Scheduler.CheckReady(k1)
            && (|Live(k1)| < |Live(k)| || (|Live(k1)| == |Live(k)| && |k1.ready| < |k.ready|)))
  {
    hide Inv, PM.CheckPending, Steady, Live, NoRevival;
    ReadySlot(k, k.ready[0]);
    HeadProgress(k);
    SteadyInv(k, PM.CheckPending(k, k.ready[0]));
    var k1 := PM.CheckPending(k, k.ready[0]);
    CheckReadyFault(k);
  }

  lemma TimerParts(k: KState)
    requires Good(k) && !k.faulted && !TimerStep(k).faulted
    ensures var k1 := PM.WakeUp(k, SLEEP_SYSCALL);
      && Good(k1) && !k1.faulted && k1.current == k.current
      && (k1.ready != [] ==>
            && Inv(Preempt(k1), {}) && Parking(Preempt(k1)) && !Preempt(k1).faulted
            && TimerStep(k) == Scheduler.Schedule(Preempt(k1)))
  {
    hide Good, Inv, Parking, Scheduler.Schedule, Preempt, PM.WakeUp, Calm, Follows;
    var k1 := PM.WakeUp(k, SLEEP_SYSCALL);
    GoodInv(k);
    CalmWakeUp(k, SLEEP_SYSCALL, {});
    GoodCalm(k, k1);
    CalmQueues(k, k1, {});
    CalmSteady(k, k1);
    SteadySame(k, k1);
    if k1.ready != [] {
      PreemptReady(k1);
    }
  }

  lemma CurrentOff(k: KState)
    requires Good(k) && !k.faulted
    ensures k.table[k.current].pid != 0 || k.current != 0 ==> OffQueues(k, k.current)
  {
    hide Inv;
    GoodInv(k);
    if k.current != 0 {
      CurrentSlot(k);
    } else {
      IdlePid(k);
    }
  }

  lemma IdlePid(k: KState)
    requires Inv(k, {})
    ensures k.table[0].pid == 0
  {
    hide Queues, InOrder, Pids, Reaped, SignalSets, Jobs;
  }

  lemma SameCurrent(k: KState, parent: Slot)
    ensures PM.NewJob(k, parent, k.current).current == k.current
  {
  }

  lemma ExitCallParts(k: KState)
    requires Good(k) && !k.faulted && k.current != 0
    ensures var i := k.current;
      Inv(k, {i}) && Alive(k.table[i]) && k.table[i].state != Init && i !in k.suspended
  {
    hide Inv;
    GoodInv(k);
    CurrentSlot(k);
    InvWeaken(k, k.current, {});
    assert {} + {k.current} == {k.current};
  }

  lemma DisjointAllocate(k: KState, i: Slot)
    requires Disjoint(k)
    ensures Disjoint(ProcessCalls.Allocate(k, i))
  {
  }

  lemma NewSlotOff(k: KState, i: Slot)
    requires Good(k) && !k.faulted && i == FindUnused(k.table, 1)
    ensures OffQueues(k, i) && i != k.current
  {
    hide Inv;
    GoodInv(k);
    UnusedSlot(k, i);
  }

  /** Some slot below `i` holds a child of the current process. */
  ghost predicate ChildBelow(k: KState, i: nat) {
    exists j: Slot :: 1 <= j < i && Occupied(k.table[j]) && k.table[j].ppid == k.table[k.current].pid
  }

  lemma ChildBelowNone(k: KState)
    ensures !ChildBelow(k, 1)
  {
  }

  lemma ChildBelowStep(k: KState, i: Slot)
    requires 1 <= i
    ensures var here := Occupied(k.table[i]) && k.table[i].ppid == k.table[k.current].pid;
      && ChildBelow(k, i + 1) == (ChildBelow(k, i) || here)
      && (here ==> ChildBelow(k, TABLE_SIZE))
      && FirstZombieChild(k, i) == if here && i in k.zombies then i else FirstZombieChild(k, i + 1)
  {
  }

  lemma FirstZombieEnd(k: KState)
    ensures FirstZombieChild(k, TABLE_SIZE) == NIL
  {
  }

  lemma FosterStep(k: KState, n: nat)
    requires n < |k.zombies|
    ensures ProcessWait.Foster(k, k.zombies[n..]) ==
      ProcessWait.Foster(ProcessWait.FosterOne(k, k.zombies[n]), k.zombies[n+1..])
    ensures ProcessWait.FosterOne(k, k.zombies[n]).zombies == k.zombies
  {
    hide ProcessWait.FosterOne;
    assert k.zombies[n..][1..] == k.zombies[n+1..];
    FosterZombies(k, k.zombies[n]);
  }

  lemma FosterZombies(k: KState, z: Slot)
    ensures ProcessWait.FosterOne(k, z).zombies == k.zombies
  {
  }

  lemma FosterEnd(k: KState, n: nat)
    requires n == |k.zombies|
    ensures ProcessWait.Foster(k, k.zombies[n..]) == k
  {
  }

  /** The zombie that is found carries the PID that was looked for. */
  lemma ZombieEvent(k: KState, event: int)
    requires Good(k)
    ensures var w := ZombieFor(k, event); w != NIL ==> k.table[w].pid == event && k.table[w].state == Killed
  {
    hide Inv;
    GoodInv(k);
    var w := ZombieFor(k, event);
    if w != NIL {
      ZombieSlot(k, w);
    }
  }

  lemma AsleepQueued(k: KState, i: Slot, limbo: set<Slot>)
    requires Inv(k, limbo) && i != 0 && i !in limbo
    ensures k.table[i].state == Asleep ==> i in k.waiting
  {
    hide NoDup, Data, InOrder;
  }

  lemma WithoutSubset(q: seq<Slot>, i: Slot)
    ensures forall j :: j in Without(q, i) ==> j in q
  {
  }
}
