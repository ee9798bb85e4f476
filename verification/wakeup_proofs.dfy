/** wake_up, kill and switch_parent: exact effects and preservation of the invariant. */
module WakeupProofs {
  import opened Sequences
  import opened ProcessModel
  import opened ProcessInvariant

  /** `k'` keeps the invariant and follows `k`. */
  ghost predicate Sound(k: KState, k': KState, limbo: set<Slot>) {
    Inv(k', limbo) && Follows(k, k') && NoRevival(k, k')
  }

  lemma SoundThen(a: KState, b: KState, c: KState, limboB: set<Slot>, limboC: set<Slot>)
    requires Sound(a, b, limboB) && Sound(b, c, limboC)
    ensures Sound(a, c, limboC)
  {
    hide Inv, Follows, NoRevival;
    FollowsTransitive(a, b, c);
    NoRevivalTransitive(a, b, c);
  }

  lemma SoundSelf(k: KState, limbo: set<Slot>)
    requires Inv(k, limbo)
    ensures Sound(k, k, limbo)
  {
    hide Inv;
  }

  /** Nothing but the ready queue, the wait list and the table differs. */
  predicate OnlyActive(k: KState, k': KState) {
    k' == k.(table := k'.table, ready := k'.ready, waiting := k'.waiting, arrivals := k'.arrivals)
  }

  // ----- wake_up

  /** The slots of `q` whose event is, or is not, `event`, in order. */
  function Select(t: Table, q: seq<Slot>, event: int, wanted: bool): seq<Slot> {
    if q == [] then []
    else if (t[q[0]].event == event) == wanted then [q[0]] + Select(t, q[1..], event, wanted)
    else Select(t, q[1..], event, wanted)
  }

  lemma {:induction false} SelectSplit(t: Table, p: seq<Slot>, q: seq<Slot>, event: int, wanted: bool)
    ensures Select(t, p + q, event, wanted) == Select(t, p, event, wanted) + Select(t, q, event, wanted)
  {
    if p == [] {
      assert p + q == q;
    } else {
      SelectSplit(t, p[1..], q, event, wanted);
      assert (p + q)[0] == p[0] && (p + q)[1..] == p[1..] + q;
      var a, b := Select(t, p[1..], event, wanted), Select(t, q, event, wanted);
      assert [p[0]] + (a + b) == [p[0]] + a + b;
    }
  }

  lemma {:induction false} SelectFrame(t: Table, t': Table, q: seq<Slot>, event: int, wanted: bool)
    requires forall i :: i in q ==> t'[i].event == t[i].event
    ensures Select(t', q, event, wanted) == Select(t, q, event, wanted)
  {
    if q != [] {
      SelectFrame(t, t', q[1..], event, wanted);
    }
  }

  lemma {:induction false} SelectNone(t: Table, q: seq<Slot>, event: int)
    requires forall i :: i in q ==> t[i].event != event
    ensures Select(t, q, event, true) == [] && Select(t, q, event, false) == q
  {
    if q != [] {
      SelectNone(t, q[1..], event);
      assert q == [q[0]] + q[1..];
    }
  }

  lemma {:induction false} SelectMembers(t: Table, q: seq<Slot>, event: int, wanted: bool)
    ensures forall i :: i in Select(t, q, event, wanted) <==> i in q && (t[i].event == event) == wanted
  {
    if q != [] {
      SelectMembers(t, q[1..], event, wanted);
      assert q == [q[0]] + q[1..];
    }
  }

  function WakeOne(k: KState, i: Slot): KState {
    var k1 := k.(waiting := Without(k.waiting, i));
    MakeReady(Put(k1, i, k1.table[i].(event := NONE)), i)
  }

  lemma SelectAround(t: Table, t': Table, p: seq<Slot>, i: Slot, r: seq<Slot>, event: int, wanted: bool)
    requires t[i].event == event
    requires forall n :: n in p + r ==> t'[n].event == t[n].event
    ensures Select(t, p + [i] + r, event, wanted)
      == Select(t, p, event, wanted) + (if wanted then [i] else []) + Select(t, r, event, wanted)
    ensures Select(t', p + r, event, wanted) == Select(t, p, event, wanted) + Select(t, r, event, wanted)
  {
    SelectSplit(t, p + [i], r, event, wanted);
    SelectSplit(t, p, [i], event, wanted);
    assert Select(t, [i], event, wanted) == if wanted then [i] else [] by {
      assert [i][1..] == [];
    }
    SelectFrame(t, t', p + r, event, wanted);
    SelectSplit(t, p, r, event, wanted);
  }

  /** What waking the first waiter does to the two halves of the wait list. */
  lemma WakeOneSelect(k: KState, p: seq<Slot>, i: Slot, r: seq<Slot>, event: int)
    requires k.waiting == p + [i] + r && NoDup(k.waiting)
    requires k.table[i].event == event && forall n :: n in p ==> k.table[n].event != event
    ensures var k1 := WakeOne(k, i);
      && NoDup(k1.waiting)
      && Select(k.table, k.waiting, event, true) == [i] + Select(k1.table, k1.waiting, event, true)
      && Select(k.table, k.waiting, event, false) == Select(k1.table, k1.waiting, event, false)
  {
    hide Select, NoDup, Without;
    var k1 := WakeOne(k, i);
    WithoutMiddle(p, i, r);
    Others(k, i, p + r);
    SelectAround(k.table, k1.table, p, i, r, event, true);
    SelectAround(k.table, k1.table, p, i, r, event, false);
    SelectNone(k.table, p, event);
  }

  lemma Others(k: KState, i: Slot, q: seq<Slot>)
    requires i !in q
    ensures forall n :: n in q ==> WakeOne(k, i).table[n].event == k.table[n].event
  {
  }

  lemma WithoutMiddle(p: seq<Slot>, i: Slot, r: seq<Slot>)
    requires NoDup(p + [i] + r)
    ensures Without(p + [i] + r, i) == p + r && NoDup(p + r) && i !in p + r
  {
    var q := p + [i] + r;
    assert q[|p|] == i && q[..|p|] == p && q[|p|+1..] == r;
    WithoutAt(q, |p|);
    WithoutNoDup(q, i);
  }

  lemma AppendOne(q: seq<Slot>, i: Slot, r: seq<Slot>)
    ensures (q + [i]) + r == q + ([i] + r)
  {
  }

  lemma WakeFirst(k: KState, event: int) returns (i: Slot)
    requires NoDup(k.waiting) && FirstWaiter(k.table, k.waiting, event) < |k.waiting|
    ensures var k1 := WakeOne(k, i);
      && i in k.waiting && k.table[i].event == event
      && NoDup(k1.waiting) && |k1.waiting| < |k.waiting|
      && Select(k.table, k.waiting, event, true) == [i] + Select(k1.table, k1.waiting, event, true)
      && Select(k.table, k.waiting, event, false) == Select(k1.table, k1.waiting, event, false)
      && WakeUp(k, event) == WakeUp(k1, event)
  {
    hide Select, NoDup, OnlyActive;
    var j := FirstWaiter(k.table, k.waiting, event);
    i := k.waiting[j];
    assert k.waiting == k.waiting[..j] + [i] + k.waiting[j+1..];
    WakeOneSelect(k, k.waiting[..j], i, k.waiting[j+1..], event);
  }

  lemma {:induction false} WakeUpQueues(k: KState, event: int)
    requires NoDup(k.waiting)
    ensures var k' := WakeUp(k, event);
      && OnlyActive(k, k')
      && k'.ready == k.ready + Select(k.table, k.waiting, event, true)
      && k'.waiting == Select(k.table, k.waiting, event, false)
    decreases |k.waiting|
  {
    if FirstWaiter(k.table, k.waiting, event) == |k.waiting| {
      SelectNone(k.table, k.waiting, event);
    } else {
      hide Select, NoDup, WakeUp, FirstWaiter, Without;
      var i := WakeFirst(k, event);
      WakeUpQueues(WakeOne(k, i), event);
      AppendOne(k.ready, i, Select(WakeOne(k, i).table, WakeOne(k, i).waiting, event, true));
    }
  }

  lemma {:induction false} WakeUpEntries(k: KState, event: int)
    requires NoDup(k.waiting)
    ensures var t' := WakeUp(k, event).table;
      && (forall i: Slot :: i in k.waiting && k.table[i].event == event ==>
            t'[i] == k.table[i].(state := Ready, event := NONE, arrival := t'[i].arrival))
      && (forall i: Slot :: i !in k.waiting || k.table[i].event != event ==> t'[i] == k.table[i])
    decreases |k.waiting|
  {
    var j := FirstWaiter(k.table, k.waiting, event);
    if j != |k.waiting| {
      var i := k.waiting[j];
      var k1 := WakeOne(k, i);
      WithoutNoDup(k.waiting, i);
      hide NoDup, FirstWaiter;
      WakeUpEntries(k1, event);
      assert forall n: Slot :: n != i ==> k1.table[n] == k.table[n] && (n in k1.waiting <==> n in k.waiting);
    }
  }

  /** wake_up moves exactly the waiters on `event`, in order, to the back of the ready
      queue, and leaves the others waiting in order. */
  lemma WakeUpExact(k: KState, event: int)
    requires NoDup(k.waiting)
    ensures var k' := WakeUp(k, event);
      && OnlyActive(k, k')
      && k'.ready == k.ready + Select(k.table, k.waiting, event, true)
      && k'.waiting == Select(k.table, k.waiting, event, false)
      && (forall i: Slot :: i in k.waiting && k.table[i].event == event ==>
            k'.table[i] == k.table[i].(state := Ready, event := NONE, arrival := k'.table[i].arrival))
      && (forall i: Slot :: i !in k.waiting || k.table[i].event != event ==> k'.table[i] == k.table[i])
  {
    WakeUpQueues(k, event);
    WakeUpEntries(k, event);
    hide WakeUp, Select;
  }

  lemma NobodyWaits(k: KState, event: int)
    requires forall j :: j in k.waiting ==> k.table[j].event != event
    ensures WakeUp(k, event) == k
  {
  }

  lemma InvWakeOne(k: KState, i: Slot, limbo: set<Slot>)
    requires Inv(k, limbo) && i in k.waiting && i !in limbo
    ensures Sound(k, WakeOne(k, i), limbo)
  {
    Waiter(k, i, limbo);
    EntrySound(k, i);
    hide Inv, Follows, NoRevival, Data, Queues;
    var k1 := k.(waiting := Without(k.waiting, i));
    LeaveWaiting(k, i, limbo);
    var k2 := Put(k1, i, k1.table[i].(event := NONE));
    InvPut(k1, i, k1.table[i].(event := NONE), limbo + {i});
    SoundThen(k, k1, k2, limbo + {i}, limbo + {i});
    JoinReady(k2, i, limbo + {i});
    assert limbo + {i} - {i} == limbo;
    SoundThen(k, k2, MakeReady(k2, i), limbo + {i}, limbo);
  }

  /** Someone on the wait list is asleep and on no other queue. */
  lemma Waiter(k: KState, i: Slot, limbo: set<Slot>)
    requires Queues(k, limbo) && i in k.waiting
    ensures i !in limbo && i != 0 && k.table[i].state == Asleep && i !in k.suspended && i !in k.ready
  {
  }

  lemma {:induction false} InvWakeUp(k: KState, event: int, limbo: set<Slot>)
    requires Inv(k, limbo)
    ensures Sound(k, WakeUp(k, event), limbo)
    decreases |k.waiting|
  {
    hide Data, Follows, NoRevival, InOrder, Sound;
    var j := FirstWaiter(k.table, k.waiting, event);
    if j == |k.waiting| {
      SoundSelf(k, limbo);
    } else {
      var i := k.waiting[j];
      Waiter(k, i, limbo);
      InvWakeOne(k, i, limbo);
      var k1 := WakeOne(k, i);
      assert Inv(k1, limbo) by { SoundInv(k, k1, limbo); }
      InvWakeUp(k1, event, limbo);
      SoundThen(k, k1, WakeUp(k1, event), limbo, limbo);
    }
  }

  lemma SoundInv(k: KState, k': KState, limbo: set<Slot>)
    requires Sound(k, k', limbo)
    ensures Inv(k', limbo)
  {
  }

  // ----- kill and switch_parent

  predicate EntryQuiet(p: Process, q: Process) {
    q.daemon == p.daemon && q.jobs >= p.jobs && (q.state == p.state || (p.state == Asleep && q.state == Ready))
  }

  /** Nobody changes state except from SLEEP to READY. */
  ghost predicate Quiet(k: KState, k': KState) {
    && k'.suspended == k.suspended && k'.zombies == k.zombies && k'.faulted == k.faulted
    && k'.foreground == k.foreground && k'.shutdown == k.shutdown
    && (forall i: Slot :: EntryQuiet(k.table[i], k'.table[i]))
  }

  ghost predicate Calm(k: KState, k': KState, limbo: set<Slot>) {
    Sound(k, k', limbo) && Quiet(k, k')
  }

  lemma QuietThen(a: KState, b: KState, c: KState)
    requires Quiet(a, b) && Quiet(b, c)
    ensures Quiet(a, c)
  {
    forall i: Slot
      ensures EntryQuiet(a.table[i], c.table[i])
    {
      assert EntryQuiet(a.table[i], b.table[i]) && EntryQuiet(b.table[i], c.table[i]);
    }
  }

  lemma CalmThen(a: KState, b: KState, c: KState, limbo: set<Slot>)
    requires Calm(a, b, limbo) && Calm(b, c, limbo)
    ensures Calm(a, c, limbo)
  {
    hide Sound, Quiet;
    SoundThen(a, b, c, limbo, limbo);
    QuietThen(a, b, c);
  }

  lemma CalmSelf(k: KState, limbo: set<Slot>)
    requires Inv(k, limbo)
    ensures Calm(k, k, limbo)
  {
    SoundSelf(k, limbo);
    hide Inv, Sound;
  }

  lemma CalmInv(k: KState, k': KState, limbo: set<Slot>)
    requires Calm(k, k', limbo)
    ensures Inv(k', limbo)
  {
    hide Inv;
  }

  lemma CalmPut(k: KState, i: Slot, q: Process, limbo: set<Slot>)
    requires Inv(k, limbo) && Keeps(k.table[i], q) && q.state == k.table[i].state
    requires q.arrival == k.table[i].arrival && q.daemon == k.table[i].daemon
    ensures Calm(k, Put(k, i, q), limbo)
  {
    hide Inv, Follows, NoRevival;
    InvPut(k, i, q, limbo);
  }

  lemma QuietWakeUp(k: KState, event: int, limbo: set<Slot>)
    requires Queues(k, limbo)
    ensures Quiet(k, WakeUp(k, event))
  {
    assert NoDup(k.waiting);
    WakeUpExact(k, event);
    forall i: Slot
      ensures EntryQuiet(k.table[i], WakeUp(k, event).table[i])
    {
      hide WakeUp;
      if i in k.waiting {
        Waiter(k, i, limbo);
      }
    }
  }

  lemma CalmWakeUp(k: KState, event: int, limbo: set<Slot>)
    requires Inv(k, limbo)
    ensures Calm(k, WakeUp(k, event), limbo)
  {
    QuietWakeUp(k, event, limbo);
    hide Data, InOrder, Queues, Follows, NoRevival, Quiet, WakeUp;
    InvWakeUp(k, event, limbo);
  }

  lemma CalmDeliver(k: KState, i: Slot, sig: Signal, limbo: set<Slot>)
    requires Inv(k, limbo) && i != 0 && i !in limbo && Alive(k.table[i])
    ensures Calm(k, Deliver(k, i, sig), limbo)
  {
    EntrySound(k, i);
    hide Data, Holds, InOrder, Follows, NoRevival;
    var q := k.table[i].(signals := Post(k.table[i].signals, sig));
    CalmPut(k, i, q, limbo);
    var k1 := Put(k, i, q);
    if q.state == Asleep {
      CalmInv(k, k1, limbo);
      CalmPull(k1, i, limbo);
      hide Calm;
      CalmThen(k, k1, Deliver(k, i, sig), limbo);
    }
  }

  /** Pulling a sleeper out of the wait list. */
  lemma CalmPull(k: KState, i: Slot, limbo: set<Slot>)
    requires Inv(k, limbo) && i != 0 && i !in limbo && k.table[i].state == Asleep
    ensures Calm(k, MakeReady(k.(waiting := Without(k.waiting, i)), i), limbo)
  {
    EntrySound(k, i);
    Sleeper(k, i, limbo);
    hide Data, Queues, InOrder, Follows, NoRevival;
    var k1 := k.(waiting := Without(k.waiting, i));
    LeaveWaiting(k, i, limbo);
    JoinReady(k1, i, limbo + {i});
    assert limbo + {i} - {i} == limbo;
    hide Inv;
    SoundThen(k, k1, MakeReady(k1, i), limbo + {i}, limbo);
  }

  lemma Sleeper(k: KState, i: Slot, limbo: set<Slot>)
    requires Queues(k, limbo) && i != 0 && i !in limbo && k.table[i].state == Asleep
    ensures i in k.waiting && i !in k.suspended && i !in k.ready && i !in k.zombies
  {
  }

  /** Slots in limbo are dead or the sender itself, so a group signal passes them by. */
  ghost predicate Spared(k: KState, sender: int, limbo: set<Slot>) {
    forall i :: i in limbo ==> !Alive(k.table[i]) || k.table[i].pid == sender
  }

  lemma SparedSlot(k: KState, n: Slot, sender: int, limbo: set<Slot>)
    requires Spared(k, sender, limbo) && k.table[n].pid != sender && Alive(k.table[n])
    ensures n !in limbo
  {
  }

  lemma SparedStays(k: KState, k': KState, sender: int, limbo: set<Slot>)
    requires Spared(k, sender, limbo) && Calm(k, k', limbo)
    ensures Spared(k', sender, limbo)
  {
    hide Inv, NoRevival;
    assert forall i: Slot :: EntryFollows(k.table[i], k'.table[i]) && EntryQuiet(k.table[i], k'.table[i]);
  }

  lemma {:induction false} CalmKillGroupFrom(k: KState, sender: int, sig: Signal, n: nat, limbo: set<Slot>)
    requires 2 <= n <= TABLE_SIZE && Inv(k, limbo) && Spared(k, sender, limbo)
    ensures Calm(k, KillGroupFrom(k, sender, sig, n), limbo)
    decreases TABLE_SIZE - n
  {
    hide Inv, Spared, Calm, Deliver;
    if n == TABLE_SIZE {
      CalmSelf(k, limbo);
    } else {
      var p := k.table[n];
      if p.pid != sender && Alive(p) && p.ppid == sender {
        SparedSlot(k, n, sender, limbo);
        CalmDeliver(k, n, sig, limbo);
        var k1 := Deliver(k, n, sig);
        CalmInv(k, k1, limbo);
        SparedStays(k, k1, sender, limbo);
        CalmKillGroupFrom(k1, sender, sig, n + 1, limbo);
        CalmThen(k, k1, KillGroupFrom(k1, sender, sig, n + 1), limbo);
      } else {
        CalmKillGroupFrom(k, sender, sig, n + 1, limbo);
      }
    }
  }

  lemma {:induction false} CalmKillAllFrom(k: KState, sender: int, sig: Signal, n: nat)
    requires 2 <= n <= TABLE_SIZE && Inv(k, {})
    ensures Calm(k, KillAllFrom(k, sender, sig, n), {})
    decreases TABLE_SIZE - n
  {
    hide Inv, Calm, Deliver;
    if n == TABLE_SIZE {
      CalmSelf(k, {});
    } else {
      var p := k.table[n];
      if p.pid != sender && Alive(p) {
        CalmDeliver(k, n, sig, {});
        var k1 := Deliver(k, n, sig);
        CalmInv(k, k1, {});
        CalmKillAllFrom(k1, sender, sig, n + 1);
        CalmThen(k, k1, KillAllFrom(k1, sender, sig, n + 1), {});
      } else {
        CalmKillAllFrom(k, sender, sig, n + 1);
      }
    }
  }

  lemma CalmKillAll(k: KState, sender: int, sig: Signal)
    requires Inv(k, {})
    ensures Calm(k, KillAll(k, sender, sig), {})
  {
    hide Inv, Calm;
    CalmKillAllFrom(k, sender, sig, 2);
    if sig == SIGTERM {
      var k1 := KillAllFrom(k, sender, sig, 2);
      CalmInv(k, k1, {});
      CalmShutdown(k1);
      CalmThen(k, k1, KillAll(k, sender, sig), {});
    }
  }

  lemma CalmShutdown(k: KState)
    requires Inv(k, {})
    ensures var k1 := Put(k, 1, k.table[1].(signals := k.table[1].signals + {SIGTERM}));
      Calm(k, Put(k1, 0, k1.table[0].(signals := k1.table[0].signals + {SIGTERM})), {})
  {
    hide Inv, Calm;
    var k1 := Put(k, 1, k.table[1].(signals := k.table[1].signals + {SIGTERM}));
    CalmAddSignal(k, 1, SIGTERM, {});
    CalmInv(k, k1, {});
    CalmAddSignal(k1, 0, SIGTERM, {});
    CalmThen(k, k1, Put(k1, 0, k1.table[0].(signals := k1.table[0].signals + {SIGTERM})), {});
  }

  /** Setting the bit of a signal that excludes no other. */
  lemma CalmAddSignal(k: KState, i: Slot, sig: Signal, limbo: set<Slot>)
    requires Inv(k, limbo) && sig !in {SIGCONT, SIGSTOP, SIGTSTP}
    ensures Calm(k, Put(k, i, k.table[i].(signals := k.table[i].signals + {sig})), limbo)
  {
    EntrySound(k, i);
    hide Inv, Calm;
    CalmPut(k, i, k.table[i].(signals := k.table[i].signals + {sig}), limbo);
  }

  /** kill keeps the invariant whatever the target and the signal. */
  lemma CalmKill(k: KState, sender: int, pid: int, sig: int)
    requires Inv(k, {})
    ensures Calm(k, Kill(k, sender, pid, sig), {})
  {
    if sig < 0 || sig >= TOTAL_SIGNALS {
      CalmSelf(k, {});
    } else if pid == -1 {
      CalmKillAll(k, sender, sig);
    } else if pid == 0 {
      CalmKillGroupFrom(k, sender, sig, 2, {});
    } else {
      hide Inv, Calm, Deliver;
      CalmSelf(k, {});
      var target := GetProcess(k, pid);
      if target != NIL {
        if Alive(k.table[target]) {
          CalmDeliver(k, target, sig, {});
        } else {
          CalmDeliverDead(k, target, sig);
        }
      }
    }
  }

  /** A signal sent to a zombie by PID stays pending. */
  lemma CalmDeliverDead(k: KState, i: Slot, sig: Signal)
    requires Inv(k, {}) && !Alive(k.table[i])
    ensures Calm(k, Deliver(k, i, sig), {})
  {
    EntrySound(k, i);
    hide Inv, Calm;
    CalmPut(k, i, k.table[i].(signals := Post(k.table[i].signals, sig)), {});
  }

  lemma {:induction false} CalmSwitchParentFrom(k: KState, parent: Slot, old_: int, transferJobs: bool, n: nat,
                                                limbo: set<Slot>)
    requires 1 <= n <= TABLE_SIZE && Inv(k, limbo)
    requires 1 <= parent && Occupied(k.table[parent]) && k.table[parent].pid == 1
    ensures Calm(k, SwitchParentFrom(k, parent, old_, 1, transferJobs, n), limbo)
    decreases TABLE_SIZE - n
  {
    hide Inv, Calm, NewJob;
    if n == TABLE_SIZE {
      CalmSelf(k, limbo);
    } else if Occupied(k.table[n]) && k.table[n].ppid == old_ {
      var k1 := AdoptOne(k, parent, n, transferJobs);
      CalmAdoptOne(k, parent, n, transferJobs, limbo);
      CalmInv(k, k1, limbo);
      CalmSwitchParentFrom(k1, parent, old_, transferJobs, n + 1, limbo);
      CalmThen(k, k1, SwitchParentFrom(k1, parent, old_, 1, transferJobs, n + 1), limbo);
    } else {
      CalmSwitchParentFrom(k, parent, old_, transferJobs, n + 1, limbo);
    }
  }

  function AdoptOne(k: KState, parent: Slot, n: Slot, transferJobs: bool): KState {
    var k1 := Put(k, n, k.table[n].(ppid := 1));
    if transferJobs && k1.table[n].jobSpec != 0 && k1.table[n].state != Stopped then NewJob(k1, parent, n) else k1
  }

  lemma CalmAdoptOne(k: KState, parent: Slot, n: Slot, transferJobs: bool, limbo: set<Slot>)
    requires Inv(k, limbo) && 1 <= n && Occupied(k.table[n])
    requires 1 <= parent && Occupied(k.table[parent]) && k.table[parent].pid == 1
    ensures var k' := AdoptOne(k, parent, n, transferJobs);
      Calm(k, k', limbo) && Occupied(k'.table[parent]) && k'.table[parent].pid == 1
  {
    hide Inv, Calm;
    var k1 := Put(k, n, k.table[n].(ppid := 1));
    CalmAdopt(k, n, limbo);
    CalmInv(k, k1, limbo);
    CalmEntry(k, k1, parent, limbo);
    CalmEntry(k, k1, n, limbo);
    if transferJobs && k1.table[n].jobSpec != 0 && k1.table[n].state != Stopped {
      CalmNewJob(k1, parent, n, limbo);
      CalmThen(k, k1, NewJob(k1, parent, n), limbo);
      CalmEntry(k, NewJob(k1, parent, n), parent, limbo);
    }
  }

  lemma CalmAdopt(k: KState, n: Slot, limbo: set<Slot>)
    requires Inv(k, limbo)
    ensures Calm(k, Put(k, n, k.table[n].(ppid := 1)), limbo)
  {
    hide Inv, Follows, NoRevival;
    InvAdopt(k, n, limbo);
  }

  lemma CalmNewJob(k: KState, parent: Slot, n: Slot, limbo: set<Slot>)
    requires Inv(k, limbo)
    requires 1 <= parent && 1 <= n && Occupied(k.table[parent]) && Occupied(k.table[n])
    requires k.table[n].ppid == k.table[parent].pid
    ensures Calm(k, NewJob(k, parent, n), limbo)
  {
    hide Inv, Follows, NoRevival;
    InvNewJob(k, parent, n, limbo);
  }

  lemma CalmEntry(k: KState, k': KState, i: Slot, limbo: set<Slot>)
    requires Calm(k, k', limbo)
    ensures EntryFollows(k.table[i], k'.table[i]) && EntryQuiet(k.table[i], k'.table[i])
  {
    hide Inv, NoRevival;
  }

  lemma CalmSwitchParent(k: KState, old_: int, transferJobs: bool, limbo: set<Slot>)
    requires Inv(k, limbo)
    ensures Calm(k, SwitchParent(k, old_, 1, transferJobs), limbo)
  {
    hide Inv, Calm;
    var parent := GetProcess(k, 1);
    if parent == NIL || k.table[parent].state == Killed {
      CalmSelf(k, limbo);
    } else {
      CalmSwitchParentFrom(k, parent, old_, transferJobs, 1, limbo);
    }
  }
}
