/** Whom init adopts in wait, and what it finds then. */
module FosterEffects {
  import opened Sequences
  import opened ProcessModel
  import opened ProcessInvariant
  import opened WakeupProofs
  import opened KernelSteps
  import opened ProcessWait
  import opened KernelRuns

  /** Nobody has the PID of the zombie's parent, or that parent has waited, and not for this one. */
  predicate Abandoned(t: Table, z: Slot) {
    || (forall p: Slot :: p != 0 && t[p].state != Unused ==> t[p].pid != t[z].ppid)
    || (exists p: Slot :: p != 0 && t[p].state != Unused && t[p].pid == t[z].ppid
          && t[p].wpid >= 0 && t[p].wpid != t[z].pid)
  }

  /** The adopted zombies have parent 1; otherwise the tables agree. */
  predicate Adopts(t: Table, t': Table, zombies: seq<Slot>) {
    forall i: Slot :: t'[i] == t[i].(ppid := if i in zombies && Abandoned(t, i) then 1 else t[i].ppid)
  }

  /** The search for a parent stops at the only one there is. */
  lemma ParentIs(k: KState, z: Slot)
    requires Inv(k, {})
    ensures var p := ParentOf(k, z);
      Abandoned(k.table, z) <==> p == NIL || (k.table[p].wpid >= 0 && k.table[z].pid != k.table[p].wpid)
  {
    hide Queues, Jobs, InOrder, Reaped, SignalSets, Running1, FindPid;
    var p := ParentOf(k, z);
    if p != NIL {
      assert p != 0 && k.table[p].pid == k.table[z].ppid;
      forall q: Slot | q != 0 && k.table[q].state != Unused && k.table[q].pid == k.table[z].ppid
        ensures q == p
      {
      }
    }
  }

  lemma OneAdopted(k: KState, z: Slot)
    requires Inv(k, {})
    ensures Adopts(k.table, FosterOne(k, z).table, [z])
    ensures FosterOne(k, z) == k.(table := FosterOne(k, z).table)
  {
    hide Inv, FindPid, Abandoned;
    ParentIs(k, z);
  }

  /** An adoption changes nobody else's chances. */
  lemma SameAbandoned(t: Table, t': Table, z: Slot, i: Slot)
    requires Adopts(t, t', [z]) && i != z
    ensures Abandoned(t', i) <==> Abandoned(t, i)
  {
    assert forall p: Slot :: t'[p].pid == t[p].pid && t'[p].state == t[p].state && t'[p].wpid == t[p].wpid;
    assert t'[i] == t[i];
  }

  lemma AdoptsMore(t: Table, t1: Table, t': Table, zombies: seq<Slot>)
    requires zombies != [] && NoDup(zombies)
    requires Adopts(t, t1, [zombies[0]]) && Adopts(t1, t', zombies[1..])
    ensures Adopts(t, t', zombies)
  {
    hide Abandoned;
    var z := zombies[0];
    assert zombies == [z] + zombies[1..];
    assert z !in zombies[1..];
    forall i: Slot
      ensures t'[i] == t[i].(ppid := if i in zombies && Abandoned(t, i) then 1 else t[i].ppid)
    {
      if i != z {
        SameAbandoned(t, t1, z, i);
      }
    }
  }

  lemma AdoptsNone(t: Table)
    ensures Adopts(t, t, [])
  {
    hide Abandoned;
  }

  /** The walk of init over the zombies: exactly those that are abandoned get parent 1, judged by the
      state at the start; no other field and no other slot changes. */
  lemma {:induction false} FosterAdopts(k: KState, zombies: seq<Slot>)
    requires Inv(k, {}) && NoDup(zombies)
    ensures var k' := Foster(k, zombies);
      k' == k.(table := k'.table) && Adopts(k.table, k'.table, zombies)
    decreases |zombies|
  {
    hide Inv, Adopts, FosterOne;
    if zombies == [] {
      AdoptsNone(k.table);
    } else {
      var k1 := FosterOne(k, zombies[0]);
      OneAdopted(k, zombies[0]);
      FosterInv(k, zombies[0]);
      NoDupRest(zombies);
      FosterAdopts(k1, zombies[1..]);
      AdoptsMore(k.table, k1.table, Foster(k1, zombies[1..]).table, zombies);
    }
  }

  lemma NoDupRest(q: seq<Slot>)
    requires NoDup(q) && q != []
    ensures NoDup(q[1..])
  {
  }

  lemma FosterInv(k: KState, z: Slot)
    requires Inv(k, {})
    ensures Inv(FosterOne(k, z), {})
  {
    assert Foster(k, [z]) == FosterOne(k, z) by {
      assert [z][1..] == [];
    }
    hide Inv, Foster;
    CalmFosterInv(k, [z]);
  }

  /** The zombies of the walk, and what init's own search sees: a zombie that is its child or is
      abandoned is its child then. */
  lemma InitLooks(k: KState, pid: int, z: Slot)
    requires Good(k) && !k.faulted && k.table[k.current].pid == 1 && z in k.zombies
    requires k.table[z].ppid == 1 || Abandoned(k.table, z)
    ensures var k1 := WaitLook(k, pid);
      && k1.current == k.current && k1.table[z].ppid == 1 && k1.table[z].state == Killed
      && k1.table[z].pid == k.table[z].pid && k1.table[k1.current].pid == 1
  {
    hide Good, Inv, Foster, StoppedChild, Adopts;
    GoodInv(k);
    ZombieSlot(k, z);
    GoodSetWpid(k, pid);
    var k0 := if StoppedChild(k) != NIL then SetWpid(k, pid) else k;
    GoodInv(k0);
    ZombiesOnce(k0);
    FosterAdopts(k0, k0.zombies);
    CurrentIs(k);
    StillAbandoned(k, pid, z);
    AdoptedAt(k0.table, Foster(k0, k0.zombies).table, k0.zombies, z);
    AdoptedAt(k0.table, Foster(k0, k0.zombies).table, k0.zombies, k.current);
  }

  lemma AdoptedAt(t: Table, t': Table, zombies: seq<Slot>, i: Slot)
    requires Adopts(t, t', zombies)
    ensures t'[i] == t[i].(ppid := if i in zombies && Abandoned(t, i) then 1 else t[i].ppid)
  {
    hide Abandoned;
  }

  lemma ZombiesOnce(k: KState)
    requires Inv(k, {})
    ensures NoDup(k.zombies)
  {
    hide NoDup, Data, InOrder;
  }

  lemma CurrentIs(k: KState)
    requires Good(k) && !k.faulted
    ensures k.table[k.current].state == Running
  {
    hide Inv;
  }

  /** Init's own wish changes nothing: it is nobody's parent here but of its own children. */
  lemma StillAbandoned(k: KState, pid: int, z: Slot)
    requires k.table[k.current].pid == 1 && k.table[k.current].state == Running && k.table[z].state == Killed
    requires k.table[z].ppid == 1 || Abandoned(k.table, z)
    ensures var t := SetWpid(k, pid).table;
      t[z].ppid == 1 || Abandoned(t, z)
  {
    var t := SetWpid(k, pid).table;
    if k.table[z].ppid != 1 {
      assert forall p: Slot :: t[p] == k.table[p].(wpid := t[p].wpid);
      assert forall p: Slot :: p != k.current ==> t[p] == k.table[p];
    }
  }

  /** A wait of init for any child, or for this one, reaps: a zombie that is its own or that is
      abandoned when the call is made is found, unless the pass ends with a stopped child. */
  lemma InitReapsAbandoned(k: KState, a: Action, z: Slot)
    requires Good(k) && Enabled(k, a) && a.Wait? && k.table[k.current].pid == 1
    requires z in k.zombies && (k.table[z].ppid == 1 || Abandoned(k.table, z))
    requires a.pid == -1 || (a.pid == k.table[z].pid && a.pid != 0)
    requires !(StoppedChild(WaitStart(k, a)) != NIL && a.untraced)
    ensures EventOf(k, a).Freed? && (a.pid != -1 ==> EventOf(k, a) == Freed(z))
  {
    hide Good, Inv, WaitLook, StoppedChild, WaitEnding;
    var k0 := WaitStart(k, a);
    GoodSetWpid(k, a.pid);
    GoodInv(k);
    ZombieSlot(k, z);
    CurrentIs(k);
    StillAbandoned(k, a.pid, z);
    InitLooks(k0, a.pid, z);
    PidPositiveAt(k, z);
    WaitFindsDeadChild(k0, a.pid, a.noHang, a.untraced, z);
    if a.pid != -1 {
      OnlyThatOne(k0, a, z);
    }
  }

  lemma PidPositiveAt(k: KState, z: Slot)
    requires Good(k) && z != 0 && k.table[z].state == Killed
    ensures k.table[z].pid >= 1
  {
    hide Queues, Jobs, InOrder, Reaped, SignalSets, Running1;
  }

  lemma OnlyThatOne(k: KState, a: Action, z: Slot)
    requires Good(k) && !k.faulted && k.current != 0 && a.Wait? && a.pid > 0
    requires WaitEnding(k, a.pid, a.noHang, a.untraced).Reaps?
    requires var k1 := WaitLook(k, a.pid); z != 0 && k1.table[z].state == Killed && k1.table[z].pid == a.pid
    ensures WaitEnding(k, a.pid, a.noHang, a.untraced) == Reaps(z)
  {
    hide Good, Inv, WaitLook, StoppedChild;
    var w := WaitEnding(k, a.pid, a.noHang, a.untraced).child;
    WaitReapsOwnDeadChild(k, a.pid, a.noHang, a.untraced, w);
    GoodLook(k, a.pid);
    GoodInv(WaitLook(k, a.pid));
    PidOwner(WaitLook(k, a.pid), a.pid, w, z);
  }

  lemma CalmFosterInv(k: KState, zombies: seq<Slot>)
    requires Inv(k, {})
    ensures Inv(Foster(k, zombies), {})
  {
    hide Inv, Foster, Calm;
    CalmFoster(k, zombies);
    CalmInv(k, Foster(k, zombies), {});
  }
}
