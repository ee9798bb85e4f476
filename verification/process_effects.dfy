/** What group and broadcast signals and the hand-over of children do to each process, stated apart
    from the loops that do it. */
module ProcessEffects {
  import opened Sequences
  import opened ProcessModel
  import opened WakeupProofs

  // ----- group and broadcast signals

  /** Who is hit: a living process other than the sender; of the group only its children. */
  predicate Hit(p: Process, sender: int, all: bool) {
    p.pid != sender && Alive(p) && (all || p.ppid == sender)
  }

  /** A hit process has the signal pending and, if it slept, is ready. */
  predicate HitEntry(p: Process, q: Process, sig: Signal) {
    && q == p.(signals := Post(p.signals, sig), state := if p.state == Asleep then Ready else p.state,
               arrival := q.arrival)
    && (p.state != Asleep ==> q.arrival == p.arrival)
  }

  /** The sleepers among those hit, in table order. */
  function HitSleepers(t: Table, sender: int, all: bool, n: nat): seq<Slot>
    requires n <= TABLE_SIZE
    decreases TABLE_SIZE - n
  {
    if n == TABLE_SIZE then []
    else (if Hit(t[n], sender, all) && t[n].state == Asleep then [n] else []) + HitSleepers(t, sender, all, n + 1)
  }

  ghost predicate Spread(k: KState, k': KState, sender: int, all: bool, sig: Signal, n: nat)
    requires n <= TABLE_SIZE
  {
    && OnlyActive(k, k')
    && k'.ready == k.ready + HitSleepers(k.table, sender, all, n)
    && (forall i: Slot :: i >= n && Hit(k.table[i], sender, all) ==>
          HitEntry(k.table[i], k'.table[i], sig) && i !in k'.waiting)
    && (forall i: Slot :: i < n || !Hit(k.table[i], sender, all) ==>
          k'.table[i] == k.table[i] && (i in k'.waiting <==> i in k.waiting))
  }

  /** Everyone hit from slot `n` on is on the wait list exactly when asleep. */
  ghost predicate SleepersListed(k: KState, sender: int, all: bool, n: nat) {
    NoDup(k.waiting) && forall i: Slot :: i >= n && Hit(k.table[i], sender, all) ==>
      (i in k.waiting <==> k.table[i].state == Asleep)
  }

  lemma {:induction false} SleepersFrame(t: Table, t': Table, sender: int, all: bool, n: nat)
    requires n <= TABLE_SIZE && forall i: Slot :: i >= n ==> t'[i] == t[i]
    ensures HitSleepers(t', sender, all, n) == HitSleepers(t, sender, all, n)
    decreases TABLE_SIZE - n
  {
    if n < TABLE_SIZE {
      SleepersFrame(t, t', sender, all, n + 1);
    }
  }

  /** One signal. */
  lemma DeliverExact(k: KState, sig: Signal, n: Slot)
    requires NoDup(k.waiting) && (n in k.waiting <==> k.table[n].state == Asleep)
    ensures var k1 := Deliver(k, n, sig);
      && OnlyActive(k, k1) && HitEntry(k.table[n], k1.table[n], sig) && n !in k1.waiting
      && k1.ready == k.ready + (if k.table[n].state == Asleep then [n] else [])
      && (forall i: Slot :: i != n ==> k1.table[i] == k.table[i] && (i in k1.waiting <==> i in k.waiting))
  {
    hide Post;
    WithoutNoDup(k.waiting, n);
    hide NoDup, Without;
    assert k.ready + [] == k.ready;
  }

  lemma SpreadReady(k: KState, k1: KState, k': KState, sender: int, all: bool, n: Slot)
    requires Hit(k.table[n], sender, all)
    requires k1.ready == k.ready + (if k.table[n].state == Asleep then [n] else [])
    requires forall i: Slot :: i > n ==> k1.table[i] == k.table[i]
    requires k'.ready == k1.ready + HitSleepers(k1.table, sender, all, n + 1)
    ensures k'.ready == k.ready + HitSleepers(k.table, sender, all, n)
  {
    SleepersFrame(k.table, k1.table, sender, all, n + 1);
    var rest := HitSleepers(k.table, sender, all, n + 1);
    var one := if k.table[n].state == Asleep then [n] else [];
    assert k.ready + one + rest == k.ready + (one + rest);
  }

  /** One signal, then the same for the slots after it. */
  lemma SpreadOne(k: KState, k': KState, sender: int, all: bool, sig: Signal, n: Slot)
    requires SleepersListed(k, sender, all, n) && Hit(k.table[n], sender, all)
    requires Spread(Deliver(k, n, sig), k', sender, all, sig, n + 1)
    ensures Spread(k, k', sender, all, sig, n)
  {
    hide Deliver, HitEntry, Hit, HitSleepers, NoDup;
    DeliverExact(k, sig, n);
    SpreadReady(k, Deliver(k, n, sig), k', sender, all, n);
  }

  lemma ListedNext(k: KState, sender: int, all: bool, sig: Signal, n: Slot)
    requires SleepersListed(k, sender, all, n)
    ensures SleepersListed(k, sender, all, n + 1)
    ensures Hit(k.table[n], sender, all) ==> SleepersListed(Deliver(k, n, sig), sender, all, n + 1)
  {
    WithoutNoDup(k.waiting, n);
    hide NoDup, Without, Post;
  }

  lemma SpreadSkip(k: KState, k': KState, sender: int, all: bool, sig: Signal, n: Slot)
    requires !Hit(k.table[n], sender, all) && Spread(k, k', sender, all, sig, n + 1)
    ensures Spread(k, k', sender, all, sig, n)
  {
    assert [] + HitSleepers(k.table, sender, all, n + 1) == HitSleepers(k.table, sender, all, n + 1);
    hide HitEntry, Hit;
  }

  lemma SpreadEnd(k: KState, sender: int, all: bool, sig: Signal)
    ensures Spread(k, k, sender, all, sig, TABLE_SIZE)
  {
    assert k.ready + [] == k.ready;
  }

  /** A group signal reaches exactly the living children of the sender. */
  lemma {:induction false} KillGroupExact(k: KState, sender: int, sig: Signal, n: nat)
    requires 2 <= n <= TABLE_SIZE && SleepersListed(k, sender, false, n)
    ensures Spread(k, KillGroupFrom(k, sender, sig, n), sender, false, sig, n)
    decreases TABLE_SIZE - n
  {
    hide Deliver, Spread, SleepersListed;
    if n == TABLE_SIZE {
      SpreadEnd(k, sender, false, sig);
    } else {
      ListedNext(k, sender, false, sig, n);
      var k' := KillGroupFrom(k, sender, sig, n);
      if Hit(k.table[n], sender, false) {
        KillGroupExact(Deliver(k, n, sig), sender, sig, n + 1);
        SpreadOne(k, k', sender, false, sig, n);
      } else {
        KillGroupExact(k, sender, sig, n + 1);
        SpreadSkip(k, k', sender, false, sig, n);
      }
    }
  }

  /** A broadcast reaches exactly the living processes other than init and the sender. */
  lemma {:induction false} KillAllExact(k: KState, sender: int, sig: Signal, n: nat)
    requires 2 <= n <= TABLE_SIZE && SleepersListed(k, sender, true, n)
    ensures Spread(k, KillAllFrom(k, sender, sig, n), sender, true, sig, n)
    decreases TABLE_SIZE - n
  {
    hide Deliver, Spread, SleepersListed;
    if n == TABLE_SIZE {
      SpreadEnd(k, sender, true, sig);
    } else {
      ListedNext(k, sender, true, sig, n);
      var k' := KillAllFrom(k, sender, sig, n);
      if Hit(k.table[n], sender, true) {
        KillAllExact(Deliver(k, n, sig), sender, sig, n + 1);
        SpreadOne(k, k', sender, true, sig, n);
      } else {
        KillAllExact(k, sender, sig, n + 1);
        SpreadSkip(k, k', sender, true, sig, n);
      }
    }
  }

  // ----- switch_parent

  /** An adopted entry: the new parent, and a job number unless it has none to transfer. */
  predicate Adopted(p: Process, q: Process, from: int, to: int, transferJobs: bool) {
    && q == p.(ppid := if Occupied(p) && p.ppid == from then to else p.ppid, jobSpec := q.jobSpec, jobs := q.jobs)
    && (!transferJobs || !Occupied(p) || p.ppid != from || p.jobSpec == 0 || p.state == Stopped ==>
        q.jobSpec == p.jobSpec)
    && q.jobs >= p.jobs
  }

  ghost predicate Transfer(k: KState, k': KState, from: int, to: int, transferJobs: bool, n: nat) {
    && k' == k.(table := k'.table)
    && (forall i: Slot :: i >= n ==> Adopted(k.table[i], k'.table[i], from, to, transferJobs))
    && (forall i: Slot :: i < n ==>
          k'.table[i] == k.table[i].(jobs := k'.table[i].jobs) && k'.table[i].jobs >= k.table[i].jobs)
  }

  lemma TransferOne(k: KState, k1: KState, k': KState, parent: Slot, from: int, to: int, transferJobs: bool, n: Slot)
    requires Occupied(k.table[n]) && k.table[n].ppid == from && from != to
    requires var a := Put(k, n, k.table[n].(ppid := to));
      k1 == if transferJobs && a.table[n].jobSpec != 0 && a.table[n].state != Stopped then NewJob(a, parent, n) else a
    requires Transfer(k1, k', from, to, transferJobs, n + 1)
    ensures Transfer(k, k', from, to, transferJobs, n)
  {
    assert forall i: Slot :: i != n ==>
      k1.table[i] == k.table[i].(jobs := k1.table[i].jobs) && k1.table[i].jobs >= k.table[i].jobs;
    assert k1.table[n] == k.table[n].(ppid := to, jobSpec := k1.table[n].jobSpec, jobs := k1.table[n].jobs);
    forall i: Slot | i > n
      ensures Adopted(k.table[i], k'.table[i], from, to, transferJobs)
    {
      assert Adopted(k1.table[i], k'.table[i], from, to, transferJobs);
    }
  }

  /** Exactly the children of one process become the children of the other. */
  lemma {:induction false} SwitchParentExact(k: KState, parent: Slot, from: int, to: int, transferJobs: bool, n: nat)
    requires 1 <= n <= TABLE_SIZE && from != to
    ensures Transfer(k, SwitchParentFrom(k, parent, from, to, transferJobs, n), from, to, transferJobs, n)
    decreases TABLE_SIZE - n
  {
    hide Transfer, NewJob;
    if n == TABLE_SIZE {
      TransferNone(k, from, to, transferJobs);
    } else if Occupied(k.table[n]) && k.table[n].ppid == from {
      var a := Put(k, n, k.table[n].(ppid := to));
      var k1 := if transferJobs && a.table[n].jobSpec != 0 && a.table[n].state != Stopped
                then NewJob(a, parent, n) else a;
      SwitchParentExact(k1, parent, from, to, transferJobs, n + 1);
      var k' := SwitchParentFrom(k1, parent, from, to, transferJobs, n + 1);
      TransferOne(k, k1, k', parent, from, to, transferJobs, n);
    } else {
      SwitchParentExact(k, parent, from, to, transferJobs, n + 1);
      TransferSkip(k, SwitchParentFrom(k, parent, from, to, transferJobs, n + 1), from, to, transferJobs, n);
    }
  }

  lemma TransferNone(k: KState, from: int, to: int, transferJobs: bool)
    ensures Transfer(k, k, from, to, transferJobs, TABLE_SIZE)
  {
  }

  lemma TransferSkip(k: KState, k': KState, from: int, to: int, transferJobs: bool, n: Slot)
    requires !(Occupied(k.table[n]) && k.table[n].ppid == from) && Transfer(k, k', from, to, transferJobs, n + 1)
    ensures Transfer(k, k', from, to, transferJobs, n)
  {
  }
}
