/** The invariant of the process state and its preservation by the steps from which the
    operations of ProcessModel are built. `limbo` is the set of slots that an operation
    holds between two queues. */
module ProcessInvariant {
  import opened Sequences
  import opened ProcessModel

  // ----- the invariant

  /** `q` holds, once each, exactly the processes in state `s`, the slots of `limbo` aside. */
  ghost predicate Holds(t: Table, q: seq<Slot>, s: State, limbo: set<Slot>) {
    && NoDup(q) && 0 !in q
    && forall i: Slot :: 1 <= i && i !in limbo ==> (i in q <==> t[i].state == s)
  }

  ghost predicate Queues(k: KState, limbo: set<Slot>) {
    && Holds(k.table, k.ready, Ready, limbo)
    && Holds(k.table, k.waiting, Asleep, limbo)
    && Holds(k.table, k.suspended, Stopped, limbo)
    && Holds(k.table, k.zombies, Killed, limbo)
    && (forall i :: i in limbo ==> i !in k.ready && i !in k.waiting && i !in k.zombies)
  }

  /** PIDs are distinct and below the counter, and a zombie's event is its PID. */
  ghost predicate Pids(t: Table, nextPid: int) {
    && 2 <= nextPid
    && (forall i: Slot :: 1 <= i && Occupied(t[i]) ==> 1 <= t[i].pid < nextPid && 0 <= t[i].ppid < nextPid)
    && (forall i: Slot, j: Slot :: 1 <= i < j && Occupied(t[i]) && Occupied(t[j]) ==> t[i].pid != t[j].pid)
    && (forall i: Slot :: 1 <= i && t[i].state == Killed ==> t[i].event == t[i].pid)
  }

  /** No PID is reaped twice, and no occupied slot has a reaped PID. */
  ghost predicate Reaped(t: Table, nextPid: int, reaped: seq<int>) {
    && NoDup(reaped)
    && (forall n :: n in reaped ==> n < nextPid)
    && (forall i: Slot :: 1 <= i && Occupied(t[i]) ==> t[i].pid !in reaped)
  }

  /** Only the current process runs; the idle process is PID 0 and never sleeps or dies. */
  ghost predicate Running1(t: Table, current: Slot) {
    && (forall i: Slot :: t[i].state == Running ==> i == current)
    && t[0].pid == 0 && t[0].daemon && (t[0].state == Running || t[0].state == Ready)
  }

  /** A continue signal is never pending together with a stop signal. */
  predicate Exclusive(s: set<Signal>) {
    SIGCONT in s ==> SIGSTOP !in s && SIGTSTP !in s
  }

  ghost predicate SignalSets(t: Table) {
    forall i: Slot :: Exclusive(t[i].signals)
  }

  /** Outside init's children, a job number names one child of its parent. */
  ghost predicate Jobs(t: Table) {
    && (forall i: Slot, j: Slot :: 1 <= i < j && Occupied(t[i]) && Occupied(t[j])
          && t[i].ppid == t[j].ppid && t[i].ppid != 1 && t[i].jobSpec != 0
          ==> t[i].jobSpec != t[j].jobSpec)
    && (forall i: Slot, j: Slot :: 1 <= i && 1 <= j && Occupied(t[i]) && Occupied(t[j])
          && t[i].ppid == t[j].pid && t[i].ppid != 1
          ==> t[i].jobSpec <= t[j].jobs)
  }

  /** The ready queue is in order of arrival. */
  ghost predicate InOrder(t: Table, q: seq<Slot>, arrivals: nat) {
    && (forall a, b :: 0 <= a < b < |q| ==> t[q[a]].arrival < t[q[b]].arrival)
    && (forall i :: i in q ==> t[i].arrival < arrivals)
  }

  ghost predicate Data(k: KState) {
    && Pids(k.table, k.nextPid) && Reaped(k.table, k.nextPid, k.reaped)
    && Running1(k.table, k.current) && SignalSets(k.table) && Jobs(k.table)
  }

  ghost predicate Inv(k: KState, limbo: set<Slot>) {
    Queues(k, limbo) && Data(k) && InOrder(k.table, k.ready, k.arrivals)
  }

  // ----- what operations keep

  /** The two signals that cannot be caught have the kernel's handler. */
  predicate Armed(h: Handlers) {
    h[SIGKILL] == KernelHandler && h[SIGSTOP] == KernelHandler
  }

  /** One entry of the table over any operation below the scheduler. */
  predicate EntryFollows(p: Process, q: Process) {
    && q.pid == p.pid
    && (q.state == Unused <==> p.state == Unused)
    && (q.state == Init <==> p.state == Init)
    && (q.state == Running ==> p.state == Running)
    && (p.state == Killed ==> q.state == Killed)
    && (Armed(p.handlers) ==> Armed(q.handlers))
    && (q.ppid == p.ppid || q.ppid == 1)
  }

  /** Identities are kept, the dead stay dead, nobody starts to run, and a ready-queue entry
      of `k'` older than `k` was already in `k`. */
  ghost predicate Follows(k: KState, k': KState) {
    && k'.nextPid == k.nextPid && k'.current == k.current && k'.reaped == k.reaped
    && k'.schedules == k.schedules && k.arrivals <= k'.arrivals
    && (forall i: Slot :: EntryFollows(k.table[i], k'.table[i]))
    && (forall i :: i in k'.ready && k'.table[i].arrival < k.arrivals ==>
          i in k.ready && k.table[i].arrival == k'.table[i].arrival)
  }

  predicate Down(s: State) {
    s == Unused || s == Stopped || s == Killed
  }

  /** Nobody leaves the stopped or dead states. */
  ghost predicate NoRevival(k: KState, k': KState) {
    forall i: Slot :: Down(k.table[i].state) ==> Down(k'.table[i].state)
  }

  lemma FollowsTransitive(a: KState, b: KState, c: KState)
    requires Follows(a, b) && Follows(b, c)
    ensures Follows(a, c)
  {
    forall i: Slot
      ensures EntryFollows(a.table[i], c.table[i])
    {
      assert EntryFollows(a.table[i], b.table[i]) && EntryFollows(b.table[i], c.table[i]);
    }
  }

  // ----- updates of one table entry

  /** An update of a table entry that keeps its place in the process tree. */
  predicate Keeps(p: Process, q: Process) {
    && EntryFollows(p, q)
    && q.ppid == p.ppid && q.jobs == p.jobs && q.jobSpec == p.jobSpec
    && (p.pid == 0 ==> q.daemon == p.daemon && q.state == p.state)
    && (q.state == Killed ==> q.event == q.pid || (p.state == Killed && q.event == p.event))
    && Exclusive(q.signals)
  }

  lemma JobsPut(t: Table, i: Slot, q: Process)
    requires Jobs(t) && Keeps(t[i], q)
    ensures Jobs(t[i := q])
  {
  }

  lemma PidsPut(t: Table, i: Slot, q: Process, nextPid: int)
    requires Pids(t, nextPid) && Keeps(t[i], q)
    ensures Pids(t[i := q], nextPid)
  {
  }

  lemma DataPut(k: KState, i: Slot, q: Process)
    requires Data(k) && Keeps(k.table[i], q)
    ensures Data(Put(k, i, q))
  {
    JobsPut(k.table, i, q);
    PidsPut(k.table, i, q, k.nextPid);
    hide Jobs, Pids;
  }

  lemma FollowsPut(k: KState, i: Slot, q: Process)
    requires EntryFollows(k.table[i], q)
    requires i in k.ready ==> q.arrival == k.table[i].arrival
    ensures Follows(k, Put(k, i, q))
    ensures (Down(k.table[i].state) ==> Down(q.state)) ==> NoRevival(k, Put(k, i, q))
  {
  }

  lemma QueuesPut(k: KState, i: Slot, q: Process, limbo: set<Slot>)
    requires Queues(k, limbo) && (q.state == k.table[i].state || i in limbo)
    ensures Queues(Put(k, i, q), limbo)
  {
  }

  lemma InOrderPut(k: KState, i: Slot, q: Process)
    requires InOrder(k.table, k.ready, k.arrivals) && (i in k.ready ==> q.arrival == k.table[i].arrival)
    ensures InOrder(k.table[i := q], k.ready, k.arrivals)
  {
  }

  /** The entry keeps its state, or its process is between queues. */
  lemma InvPut(k: KState, i: Slot, q: Process, limbo: set<Slot>)
    requires Inv(k, limbo) && Keeps(k.table[i], q)
    requires i in k.ready ==> q.arrival == k.table[i].arrival
    requires q.state == k.table[i].state || i in limbo
    ensures Inv(Put(k, i, q), limbo) && Follows(k, Put(k, i, q))
    ensures (Down(k.table[i].state) ==> Down(q.state)) ==> NoRevival(k, Put(k, i, q))
  {
    hide Queues, Data, Follows, NoRevival, InOrder;
    QueuesPut(k, i, q, limbo);
    DataPut(k, i, q);
    InOrderPut(k, i, q);
    FollowsPut(k, i, q);
  }

  // ----- leaving a queue

  lemma HoldsWithout(t: Table, q: seq<Slot>, s: State, limbo: set<Slot>, i: Slot)
    requires Holds(t, q, s, limbo)
    ensures Holds(t, Without(q, i), s, limbo + {i}) && Holds(t, q, s, limbo + {i})
  {
    WithoutNoDup(q, i);
  }

  lemma {:induction false} InOrderWithout(t: Table, q: seq<Slot>, x: Slot, arrivals: nat)
    requires InOrder(t, q, arrivals)
    ensures InOrder(t, Without(q, x), arrivals)
  {
    if q != [] {
      InOrderRest(t, q, arrivals);
      if q[0] != x {
        InOrderWithout(t, q[1..], x, arrivals);
        InOrderPrepend(t, q[0], Without(q[1..], x), arrivals);
      }
    }
  }

  lemma InOrderRest(t: Table, q: seq<Slot>, arrivals: nat)
    requires InOrder(t, q, arrivals) && q != []
    ensures InOrder(t, q[1..], arrivals) && t[q[0]].arrival < arrivals
    ensures forall i :: i in q[1..] ==> t[q[0]].arrival < t[i].arrival
  {
    assert forall j :: 0 <= j < |q| - 1 ==> q[1..][j] == q[j+1];
  }

  lemma InOrderPrepend(t: Table, i: Slot, q: seq<Slot>, arrivals: nat)
    requires InOrder(t, q, arrivals) && t[i].arrival < arrivals
    requires forall j :: j in q ==> t[i].arrival < t[j].arrival
    ensures InOrder(t, [i] + q, arrivals)
  {
  }

  lemma LeaveReady(k: KState, i: Slot, limbo: set<Slot>)
    requires Inv(k, limbo) && i in k.ready
    ensures var k' := k.(ready := Without(k.ready, i));
      Inv(k', limbo + {i}) && Follows(k, k') && NoRevival(k, k')
  {
    HoldsWithout(k.table, k.ready, Ready, limbo, i);
    HoldsWithout(k.table, k.waiting, Asleep, limbo, i);
    HoldsWithout(k.table, k.suspended, Stopped, limbo, i);
    HoldsWithout(k.table, k.zombies, Killed, limbo, i);
    InOrderWithout(k.table, k.ready, i, k.arrivals);
    WithoutNoDup(k.ready, i);
    Elsewhere(k, i, limbo);
    hide Data, InOrder, Holds;
  }

  /** A queued process is on one queue only. */
  lemma Elsewhere(k: KState, i: Slot, limbo: set<Slot>)
    requires Queues(k, limbo)
    ensures i in k.ready ==> i !in k.waiting && i !in k.zombies
    ensures i in k.waiting ==> i !in k.ready && i !in k.zombies
    ensures i in k.zombies ==> i !in k.ready && i !in k.waiting
    ensures i !in limbo && i in k.suspended ==> i !in k.ready && i !in k.waiting && i !in k.zombies
    ensures i !in limbo && (i in k.ready || i in k.waiting || i in k.zombies) ==> i !in k.suspended
  {
  }

  lemma LeaveWaiting(k: KState, i: Slot, limbo: set<Slot>)
    requires Inv(k, limbo) && i in k.waiting
    ensures var k' := k.(waiting := Without(k.waiting, i));
      Inv(k', limbo + {i}) && Follows(k, k') && NoRevival(k, k')
  {
    HoldsWithout(k.table, k.ready, Ready, limbo, i);
    HoldsWithout(k.table, k.waiting, Asleep, limbo, i);
    HoldsWithout(k.table, k.suspended, Stopped, limbo, i);
    HoldsWithout(k.table, k.zombies, Killed, limbo, i);
    WithoutNoDup(k.waiting, i);
    Elsewhere(k, i, limbo);
    hide Data, InOrder, Holds;
  }

  lemma LeaveSuspended(k: KState, i: Slot, limbo: set<Slot>)
    requires Inv(k, limbo) && i in k.suspended && i !in k.ready && i !in k.waiting && i !in k.zombies
    ensures var k' := k.(suspended := Without(k.suspended, i));
      Inv(k', limbo + {i}) && i !in k'.suspended && Follows(k, k') && NoRevival(k, k')
  {
    HoldsWithout(k.table, k.ready, Ready, limbo, i);
    HoldsWithout(k.table, k.waiting, Asleep, limbo, i);
    HoldsWithout(k.table, k.suspended, Stopped, limbo, i);
    HoldsWithout(k.table, k.zombies, Killed, limbo, i);
    WithoutNoDup(k.suspended, i);
    hide Data, InOrder, Holds;
  }

  // ----- joining a queue

  lemma HoldsAppend(t: Table, q: seq<Slot>, s: State, limbo: set<Slot>, i: Slot)
    requires Holds(t, q, s, limbo) && i in limbo && i != 0 && i !in q && t[i].state == s
    ensures Holds(t, q + [i], s, limbo - {i})
  {
    NoDupAppend(q, i);
  }

  lemma HoldsApart(t: Table, q: seq<Slot>, s: State, limbo: set<Slot>, i: Slot)
    requires Holds(t, q, s, limbo) && i !in q && t[i].state != s
    ensures Holds(t, q, s, limbo - {i})
  {
  }

  lemma JoinReady(k: KState, i: Slot, limbo: set<Slot>)
    requires Inv(k, limbo) && i in limbo && i != 0 && i !in k.suspended && Alive(k.table[i])
    requires k.table[i].state != Init && k.table[i].pid != 0
    ensures Inv(MakeReady(k, i), limbo - {i}) && Follows(k, MakeReady(k, i))
    ensures !Down(k.table[i].state) ==> NoRevival(k, MakeReady(k, i))
  {
    hide Pids, Reaped, Running1, SignalSets, Jobs, InOrder, Holds;
    var q := k.table[i].(state := Ready, arrival := k.arrivals);
    EntrySound(k, i);
    InvPut(k, i, q, limbo);
    JoinReadyQueues(Put(k, i, q), i, limbo);
    JoinReadyOrder(k, i);
    assert MakeReady(k, i) == Put(k, i, q).(ready := k.ready + [i], arrivals := k.arrivals + 1);
  }

  lemma EntrySound(k: KState, i: Slot)
    requires Data(k)
    ensures Exclusive(k.table[i].signals)
    ensures 1 <= i && Occupied(k.table[i]) ==> 1 <= k.table[i].pid
    ensures 1 <= i && k.table[i].state == Killed ==> k.table[i].event == k.table[i].pid
  {
  }

  lemma JoinReadyQueues(k: KState, i: Slot, limbo: set<Slot>)
    requires Queues(k, limbo) && i in limbo && i != 0 && i !in k.suspended && k.table[i].state == Ready
    ensures Queues(k.(ready := k.ready + [i], arrivals := k.arrivals + 1), limbo - {i})
  {
    HoldsAppend(k.table, k.ready, Ready, limbo, i);
    HoldsApart(k.table, k.waiting, Asleep, limbo, i);
    HoldsApart(k.table, k.suspended, Stopped, limbo, i);
    HoldsApart(k.table, k.zombies, Killed, limbo, i);
    hide Holds;
  }

  lemma JoinReadyOrder(k: KState, i: Slot)
    requires InOrder(k.table, k.ready, k.arrivals) && i !in k.ready
    ensures InOrder(MakeReady(k, i).table, k.ready + [i], k.arrivals + 1)
  {
  }

  lemma JoinWaiting(k: KState, i: Slot, limbo: set<Slot>)
    requires Inv(k, limbo) && i in limbo && i != 0 && i !in k.suspended && Alive(k.table[i])
    requires k.table[i].state != Init && k.table[i].pid != 0
    ensures Inv(MakeAsleep(k, i), limbo - {i}) && Follows(k, MakeAsleep(k, i))
    ensures !Down(k.table[i].state) ==> NoRevival(k, MakeAsleep(k, i))
  {
    hide Pids, Reaped, Running1, SignalSets, Jobs, InOrder, Holds;
    var q := k.table[i].(state := Asleep);
    EntrySound(k, i);
    InvPut(k, i, q, limbo);
    var k1 := Put(k, i, q);
    HoldsAppend(k1.table, k1.waiting, Asleep, limbo, i);
    HoldsApart(k1.table, k1.ready, Ready, limbo, i);
    HoldsApart(k1.table, k1.suspended, Stopped, limbo, i);
    HoldsApart(k1.table, k1.zombies, Killed, limbo, i);
    assert MakeAsleep(k, i) == k1.(waiting := k.waiting + [i]);
  }

  lemma JoinZombies(k: KState, i: Slot, limbo: set<Slot>)
    requires Inv(k, limbo) && i in limbo && i != 0 && i !in k.suspended && k.table[i].state == Killed
    ensures var k' := k.(zombies := k.zombies + [i]);
      Inv(k', limbo - {i}) && Follows(k, k') && NoRevival(k, k')
  {
    HoldsAppend(k.table, k.zombies, Killed, limbo, i);
    HoldsApart(k.table, k.waiting, Asleep, limbo, i);
    HoldsApart(k.table, k.suspended, Stopped, limbo, i);
    HoldsApart(k.table, k.ready, Ready, limbo, i);
    hide Data, InOrder, Holds;
  }

  lemma JoinSuspended(k: KState, i: Slot, limbo: set<Slot>)
    requires Inv(k, limbo) && i in limbo && i != 0 && i !in k.suspended && k.table[i].state == Stopped
    ensures var k' := k.(suspended := k.suspended + [i]);
      Inv(k', limbo - {i}) && Follows(k, k') && NoRevival(k, k')
  {
    HoldsAppend(k.table, k.suspended, Stopped, limbo, i);
    HoldsApart(k.table, k.waiting, Asleep, limbo, i);
    HoldsApart(k.table, k.zombies, Killed, limbo, i);
    HoldsApart(k.table, k.ready, Ready, limbo, i);
    hide Data, InOrder, Holds;
  }

  // ----- the process tree

  lemma JobsAdopt(t: Table, i: Slot)
    requires Jobs(t)
    ensures Jobs(t[i := t[i].(ppid := 1)])
  {
  }

  /** A process becomes a child of init. */
  lemma InvAdopt(k: KState, i: Slot, limbo: set<Slot>)
    requires Inv(k, limbo)
    ensures var k' := Put(k, i, k.table[i].(ppid := 1));
      Inv(k', limbo) && Follows(k, k') && NoRevival(k, k')
  {
    hide Queues, Follows, NoRevival, Jobs, InOrder;
    var q := k.table[i].(ppid := 1);
    QueuesPut(k, i, q, limbo);
    FollowsPut(k, i, q);
    JobsAdopt(k.table, i);
    InOrderPut(k, i, q);
  }

  lemma JobsSet(t: Table, parent: Slot, i: Slot, nextPid: int)
    requires Jobs(t) && Pids(t, nextPid)
    requires 1 <= parent && 1 <= i && Occupied(t[parent]) && Occupied(t[i]) && t[i].ppid == t[parent].pid
    requires t[i].ppid != 1 ==> forall j: Slot ::
      1 <= j && Occupied(t[j]) && t[j].ppid == t[parent].pid ==> t[j].jobSpec < t[parent].jobs
    ensures Jobs(t[i := t[i].(jobSpec := t[parent].jobs)])
  {
    var t' := t[i := t[i].(jobSpec := t[parent].jobs)];
    assert forall j: Slot :: j != i ==> t'[j] == t[j];
  }

  lemma JobsRaise(t: Table, parent: Slot)
    requires Jobs(t) && 1 <= parent && Occupied(t[parent])
    ensures var t' := t[parent := t[parent].(jobs := t[parent].jobs + 1)];
      && Jobs(t')
      && (t[parent].pid != 1 ==> forall j: Slot ::
            1 <= j && Occupied(t'[j]) && t'[j].ppid == t'[parent].pid ==> t'[j].jobSpec < t'[parent].jobs)
  {
  }

  /** An update that changes job accounts only. */
  lemma InvPutJobs(k: KState, i: Slot, q: Process, limbo: set<Slot>)
    requires Inv(k, limbo) && Jobs(k.table[i := q])
    requires q == k.table[i].(jobs := q.jobs, jobSpec := q.jobSpec)
    ensures Inv(Put(k, i, q), limbo) && Follows(k, Put(k, i, q)) && NoRevival(k, Put(k, i, q))
  {
    hide Queues, Follows, NoRevival, Jobs, InOrder;
    QueuesPut(k, i, q, limbo);
    FollowsPut(k, i, q);
    InOrderPut(k, i, q);
  }

  lemma InvNewJob(k: KState, parent: Slot, i: Slot, limbo: set<Slot>)
    requires Inv(k, limbo)
    requires 1 <= parent && 1 <= i && Occupied(k.table[parent]) && Occupied(k.table[i])
    requires k.table[i].ppid == k.table[parent].pid
    ensures Inv(NewJob(k, parent, i), limbo) && Follows(k, NewJob(k, parent, i)) && NoRevival(k, NewJob(k, parent, i))
  {
    hide Queues, Jobs, InOrder, Pids, Running1, Reaped, SignalSets, Follows, NoRevival;
    var q := k.table[parent].(jobs := k.table[parent].jobs + 1);
    var k1 := Put(k, parent, q);
    JobsRaise(k.table, parent);
    InvPutJobs(k, parent, q, limbo);
    JobsSet(k1.table, parent, i, k.nextPid);
    InvPutJobs(k1, i, k1.table[i].(jobSpec := k1.table[parent].jobs), limbo);
    FollowsTransitive(k, k1, NewJob(k, parent, i));
    NoRevivalTransitive(k, k1, NewJob(k, parent, i));
  }

  lemma NoRevivalTransitive(a: KState, b: KState, c: KState)
    requires NoRevival(a, b) && NoRevival(b, c)
    ensures NoRevival(a, c)
  {
  }
}
