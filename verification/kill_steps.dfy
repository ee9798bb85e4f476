/** Whom a signal reaches: kill and the control keys on the whole process state. */
module KillSteps {
  import opened Sequences
  import opened ProcessModel
  import opened ProcessInvariant
  import opened WakeupProofs
  import opened ProcessEffects
  import opened KernelSteps
  import opened KernelRuns

  /** A pending signal `s` that a new signal `sig` discards. */
  predicate Discards(sig: Signal, s: Signal) {
    || ((sig == SIGSTOP || sig == SIGTSTP) && s == SIGCONT)
    || (sig == SIGCONT && (s == SIGSTOP || s == SIGTSTP))
  }

  /** The signal is pending besides what was pending and is not discarded; a sleeper is ready. */
  predicate Reached(p: Process, q: Process, sig: Signal) {
    && q == p.(signals := q.signals, state := if p.state == Asleep then Ready else p.state, arrival := q.arrival)
    && (p.state != Asleep ==> q.arrival == p.arrival)
    && (forall s: Signal :: s in q.signals <==> s == sig || (s in p.signals && !Discards(sig, s)))
  }

  lemma PostReaches(p: Process, q: Process, sig: Signal)
    requires HitEntry(p, q, sig)
    ensures Reached(p, q, sig)
  {
  }

  /** The slots from 2 on that a signal to everybody, or to the children, is for. */
  predicate Meant(p: Process, i: Slot, sender: int, all: bool) {
    i >= 2 && p.state != Unused && p.state != Killed && p.pid != sender && (all || p.ppid == sender)
  }

  /** `late` is what the ready queue has grown by: the sleepers among those that are meant, in
      order of their slots. */
  ghost predicate Joined(k: KState, k': KState, sender: int, all: bool, late: seq<Slot>) {
    && k'.ready == k.ready + late
    && (forall a, b :: 0 <= a < b < |late| ==> late[a] < late[b])
    && (forall i: Slot :: i in late <==> Meant(k.table[i], i, sender, all) && k.table[i].state == Asleep)
  }

  lemma {:induction false} SleepersAre(t: Table, sender: int, all: bool, n: nat)
    requires 2 <= n <= TABLE_SIZE
    ensures var late := HitSleepers(t, sender, all, n);
      && (forall a, b :: 0 <= a < b < |late| ==> late[a] < late[b])
      && (forall i: Slot :: i in late <==> i >= n && Meant(t[i], i, sender, all) && t[i].state == Asleep)
    decreases TABLE_SIZE - n
  {
    if n < TABLE_SIZE {
      SleepersAre(t, sender, all, n + 1);
      var rest := HitSleepers(t, sender, all, n + 1);
      assert forall a :: 0 <= a < |rest| ==> rest[a] in rest;
    }
  }

  /** Exactly those who are meant are reached, and nobody else from slot 2 on is touched. */
  ghost predicate ReachesMeant(k: KState, k': KState, sender: int, all: bool, sig: Signal) {
    && OnlyActive(k, k')
    && (forall i: Slot :: Meant(k.table[i], i, sender, all) ==>
          Reached(k.table[i], k'.table[i], sig) && i !in k'.waiting)
    && (forall i: Slot :: !Meant(k.table[i], i, sender, all) ==> (i in k'.waiting <==> i in k.waiting))
    && (forall i: Slot :: i >= 2 && !Meant(k.table[i], i, sender, all) ==> k'.table[i] == k.table[i])
    && exists late :: Joined(k, k', sender, all, late)
  }

  lemma AllListed(k: KState, sender: int, all: bool)
    requires Inv(k, {})
    ensures SleepersListed(k, sender, all, 2)
  {
    hide NoDup, InOrder, Data;
  }

  lemma SpreadReaches(k: KState, k': KState, sender: int, all: bool, sig: Signal)
    requires Spread(k, k', sender, all, sig, 2)
    ensures ReachesMeant(k, k', sender, all, sig) && k'.table[0] == k.table[0] && k'.table[1] == k.table[1]
  {
    SpreadJoins(k, k', sender, all, sig);
    hide HitSleepers, HitEntry, Reached, Joined;
    forall i: Slot
      ensures Meant(k.table[i], i, sender, all) ==> Reached(k.table[i], k'.table[i], sig) && i !in k'.waiting
      ensures !Meant(k.table[i], i, sender, all) ==>
        k'.table[i] == k.table[i] && (i in k'.waiting <==> i in k.waiting)
    {
      SpreadAt(k, k', sender, all, sig, i);
    }
  }

  lemma SpreadJoins(k: KState, k': KState, sender: int, all: bool, sig: Signal)
    requires Spread(k, k', sender, all, sig, 2)
    ensures OnlyActive(k, k') && exists late :: Joined(k, k', sender, all, late)
  {
    hide HitSleepers, HitEntry, Meant;
    SpreadQueue(k, k', sender, all, sig);
    hide Spread, OnlyActive;
    AllSleepers(k.table, sender, all);
    assert Joined(k, k', sender, all, HitSleepers(k.table, sender, all, 2));
  }

  lemma AllSleepers(t: Table, sender: int, all: bool)
    ensures var late := HitSleepers(t, sender, all, 2);
      && (forall a, b :: 0 <= a < b < |late| ==> late[a] < late[b])
      && (forall i: Slot :: i in late <==> Meant(t[i], i, sender, all) && t[i].state == Asleep)
  {
    hide HitSleepers;
    SleepersAre(t, sender, all, 2);
  }

  lemma SpreadQueue(k: KState, k': KState, sender: int, all: bool, sig: Signal)
    requires Spread(k, k', sender, all, sig, 2)
    ensures OnlyActive(k, k') && k'.ready == k.ready + HitSleepers(k.table, sender, all, 2)
  {
    hide HitSleepers, HitEntry, Hit;
  }

  lemma SpreadAt(k: KState, k': KState, sender: int, all: bool, sig: Signal, i: Slot)
    requires Spread(k, k', sender, all, sig, 2)
    ensures Meant(k.table[i], i, sender, all) ==> Reached(k.table[i], k'.table[i], sig) && i !in k'.waiting
    ensures !Meant(k.table[i], i, sender, all) ==>
      k'.table[i] == k.table[i] && (i in k'.waiting <==> i in k.waiting)
  {
    hide HitSleepers, HitEntry, Reached;
    if Meant(k.table[i], i, sender, all) {
      PostReaches(k.table[i], k'.table[i], sig);
    }
  }

  /** kill with PID -1: everybody alive from slot 2 on except the sender is reached; init and the
      idle process have SIGTERM pending besides if that is the signal, and are untouched otherwise. */
  lemma BroadcastReaches(k: KState, sender: int, sig: Signal)
    requires Inv(k, {}) && sig != SIGHUP
    ensures var k' := Kill(k, sender, -1, sig);
      && ReachesMeant(k, k', sender, true, sig)
      && (forall i: Slot :: i < 2 ==>
            k'.table[i] == k.table[i].(signals := k'.table[i].signals)
            && (forall s: Signal :: s in k'.table[i].signals <==>
                  s in k.table[i].signals || (s == SIGTERM && sig == SIGTERM)))
  {
    hide Inv, KillAllFrom, Spread, ReachesMeant, SleepersListed;
    AllListed(k, sender, true);
    KillAllExact(k, sender, sig, 2);
    var k1 := KillAllFrom(k, sender, sig, 2);
    SpreadReaches(k, k1, sender, true, sig);
    MarksLow(k, k1, Kill(k, sender, -1, sig), sender, sig);
  }

  lemma MarksLow(k: KState, k1: KState, k': KState, sender: int, sig: Signal)
    requires ReachesMeant(k, k1, sender, true, sig)
    requires k' == k1.(table := k'.table) && forall i: Slot :: i >= 2 ==> k'.table[i] == k1.table[i]
    ensures ReachesMeant(k, k', sender, true, sig)
  {
    hide Reached;
    var late :| Joined(k, k1, sender, true, late);
    assert Joined(k, k', sender, true, late);
  }

  /** kill with PID 0: exactly the living children of the sender are reached. */
  lemma GroupReaches(k: KState, sender: int, sig: Signal)
    requires Inv(k, {})
    ensures var k' := Kill(k, sender, 0, sig);
      ReachesMeant(k, k', sender, false, sig) && k'.table[0] == k.table[0] && k'.table[1] == k.table[1]
  {
    hide Inv, KillGroupFrom, Spread, ReachesMeant, SleepersListed;
    AllListed(k, sender, false);
    KillGroupExact(k, sender, sig, 2);
    SpreadReaches(k, Kill(k, sender, 0, sig), sender, false, sig);
  }

  /** Nobody but slot `n` is touched; it is reached and, if it slept, is last on the ready queue. */
  ghost predicate ReachesOne(k: KState, k': KState, n: Slot, sig: Signal) {
    && OnlyActive(k, k') && Reached(k.table[n], k'.table[n], sig) && n !in k'.waiting
    && k'.ready == (if k.table[n].state == Asleep then k.ready + [n] else k.ready)
    && (forall i: Slot :: i != n ==> k'.table[i] == k.table[i] && (i in k'.waiting <==> i in k.waiting))
  }

  lemma WaitsIffAsleep(k: KState, n: Slot)
    requires Inv(k, {}) && n != 0
    ensures NoDup(k.waiting) && (n in k.waiting <==> k.table[n].state == Asleep)
  {
    hide NoDup, InOrder, Data;
  }

  /** kill with any other PID: the one occupied slot with that PID is reached, or nothing changes
      because there is none. */
  lemma SingleReaches(k: KState, sender: int, pid: int, sig: Signal)
    requires Inv(k, {}) && pid != -1 && pid != 0
    ensures var k' := Kill(k, sender, pid, sig);
      && (forall n: Slot :: n != 0 && Occupied(k.table[n]) && k.table[n].pid == pid ==> ReachesOne(k, k', n, sig))
      && ((forall n: Slot :: n != 0 && Occupied(k.table[n]) ==> k.table[n].pid != pid) ==> k' == k)
  {
    hide Inv, Deliver, FindPid, ReachesOne;
    var target := GetProcess(k, pid);
    if target != NIL {
      WaitsIffAsleep(k, target);
      DeliverExact(k, sig, target);
      PostReaches(k.table[target], Deliver(k, target, sig).table[target], sig);
      OneReached(k, sig, target);
      forall n: Slot | n != 0 && Occupied(k.table[n]) && k.table[n].pid == pid
        ensures n == target
      {
        SamePid(k, n, target);
      }
    }
  }

  lemma OneReached(k: KState, sig: Signal, n: Slot)
    requires NoDup(k.waiting) && (n in k.waiting <==> k.table[n].state == Asleep)
    ensures ReachesOne(k, Deliver(k, n, sig), n, sig)
  {
    hide Deliver, NoDup, Reached;
    DeliverExact(k, sig, n);
    PostReaches(k.table[n], Deliver(k, n, sig).table[n], sig);
    assert k.ready + [] == k.ready;
  }

  lemma SamePid(k: KState, a: Slot, b: Slot)
    requires Inv(k, {}) && a != 0 && b != 0 && Occupied(k.table[a]) && Occupied(k.table[b])
    requires k.table[a].pid == k.table[b].pid
    ensures a == b
  {
    hide Queues, Jobs, InOrder, Reaped, SignalSets, Running1;
  }

  /** kill as a system call, for every PID and signal: a number that is no signal, and init as the
      target, are refused; -1 is for everybody, 0 for the children, anything else for one process. */
  lemma KillCallReaches(k: KState, pid: int, sig: int)
    requires Good(k) && Enabled(k, KillCall(pid, sig))
    ensures var k' := Step(k, KillCall(pid, sig)); var sender := k.table[k.current].pid;
      if sig < 0 || sig >= TOTAL_SIGNALS || pid == 1 then k' == k
      else if pid == -1 then
        && ReachesMeant(k, k', sender, true, sig)
        && (forall i: Slot :: i < 2 ==>
              k'.table[i] == k.table[i].(signals := k'.table[i].signals)
              && (forall s: Signal :: s in k'.table[i].signals <==>
                    s in k.table[i].signals || (s == SIGTERM && sig == SIGTERM)))
      else if pid == 0 then
        ReachesMeant(k, k', sender, false, sig) && k'.table[0] == k.table[0] && k'.table[1] == k.table[1]
      else
        && (forall n: Slot :: n != 0 && Occupied(k.table[n]) && k.table[n].pid == pid ==> ReachesOne(k, k', n, sig))
        && ((forall n: Slot :: n != 0 && Occupied(k.table[n]) ==> k.table[n].pid != pid) ==> k' == k)
  {
    hide Good, Inv, ReachesMeant, ReachesOne;
    GoodInv(k);
    var sender := k.table[k.current].pid;
    KillForm(k, pid, sig);
    hide Kill, Step;
    if 0 <= sig < TOTAL_SIGNALS && pid != 1 {
      if pid == -1 {
        BroadcastReaches(k, sender, sig);
      } else if pid == 0 {
        GroupReaches(k, sender, sig);
      } else {
        SingleReaches(k, sender, pid, sig);
      }
    }
  }

  lemma KillForm(k: KState, pid: int, sig: int)
    requires Good(k) && Enabled(k, KillCall(pid, sig))
    ensures Step(k, KillCall(pid, sig)) == if pid == 1 then k else Kill(k, k.table[k.current].pid, pid, sig)
    ensures (sig < 0 || sig >= TOTAL_SIGNALS) ==> Kill(k, k.table[k.current].pid, pid, sig) == k
  {
    hide Good;
  }

  /** A control key reaches the foreground process, if it lives, and nobody else. */
  lemma ControlKeyReaches(k: KState, key: Signal)
    requires Good(k) && !k.faulted && k.foreground != 0
    ensures var k', f := Step(k, ControlKey(key)), k.foreground;
      if f == NIL || k.table[f].state == Unused || k.table[f].state == Killed then k' == k
      else ReachesOne(k, k', f, key)
  {
    hide Good, Inv, ReachesOne;
    GoodInv(k);
    var f := ForegroundProcess(k);
    if f != NIL {
      SlotPid(k, f);
      hide Kill;
      SingleReaches(k, k.table[f].ppid, k.table[f].pid, key);
    }
  }

  lemma SlotPid(k: KState, f: Slot)
    requires Inv(k, {}) && f != 0 && Occupied(k.table[f])
    ensures k.table[f].pid >= 1
  {
    hide Queues, Jobs, InOrder, Reaped, SignalSets, Running1;
  }
}
