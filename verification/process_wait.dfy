/** wait: acknowledging stopped children, fostering abandoned zombies, reaping. One pass of
    its loop is one step; a pass that blocks ends in schedule(). */
module ProcessWait {
  import opened Sequences
  import opened ProcessModel
  import opened ProcessInvariant
  import opened WakeupProofs
  import opened SignalProofs
  import opened HandlerProofs
  import opened PendingProofs
  import opened KernelSteps

  /** How a pass of the loop ends. */
  datatype WaitEnd = Acknowledged(job: Slot) | NoChild | Reaps(child: Slot) | WouldBlock | Blocks

  /** The stopped process that the caller has been told about, if it is still suspended. */
  function StoppedChild(k: KState): Link {
    if k.table[k.current].wpid > 1 then
      var p := GetProcess(k, k.table[k.current].wpid);
      if p != NIL && k.table[p].state == Stopped && p in k.suspended then p else NIL
    else NIL
  }

  function SetWpid(k: KState, pid: int): KState {
    Put(k, k.current, k.table[k.current].(wpid := pid))
  }

  /** A zombie whose parent is gone, or is waiting for somebody else, becomes init's. */
  function FosterOne(k: KState, z: Slot): KState {
    if k.table[z].ppid != 1 then
      var parent := ParentOf(k, z);
      if parent == NIL || (k.table[parent].wpid >= 0 && k.table[z].pid != k.table[parent].wpid) then
        Put(k, z, k.table[z].(ppid := 1))
      else k
    else k
  }

  function Foster(k: KState, zombies: seq<Slot>): KState
    decreases |zombies|
  {
    if zombies == [] then k else Foster(FosterOne(k, zombies[0]), zombies[1..])
  }

  /** The first child in table order that is a zombie. */
  function FirstZombieChild(k: KState, i: nat): (r: Link)
    requires 1 <= i <= TABLE_SIZE
    ensures r != NIL ==> i <= r && Occupied(k.table[r]) && k.table[r].ppid == k.table[k.current].pid && r in k.zombies
    ensures r == NIL ==>
      forall j: Slot :: i <= j && Occupied(k.table[j]) && k.table[j].ppid == k.table[k.current].pid ==> j !in k.zombies
    decreases TABLE_SIZE - i
  {
    if i == TABLE_SIZE then NIL
    else if Occupied(k.table[i]) && k.table[i].ppid == k.table[k.current].pid && i in k.zombies then i
    else FirstZombieChild(k, i + 1)
  }

  predicate HasChild(k: KState, pid: int) {
    if pid == -1 then
      exists i: Slot :: 1 <= i && Occupied(k.table[i]) && k.table[i].ppid == k.table[k.current].pid
    else
      var p := GetProcess(k, pid);
      p != NIL && k.table[p].ppid == k.table[k.current].pid
  }

  /** The event that is looked for among the zombies. */
  function WaitTarget(k: KState, pid: int): int {
    if pid == -1 then
      var z := FirstZombieChild(k, 1);
      if z == NIL then -1 else k.table[z].pid
    else pid
  }

  function ZombieFor(k: KState, event: int): Link {
    var j := FirstWaiter(k.table, k.zombies, event);
    if j == |k.zombies| then NIL else k.zombies[j]
  }

  /** The state in which a pass looks for a zombie: stopped child acknowledged, zombies fostered. */
  function WaitLook(k: KState, pid: int): KState {
    var k1 := if StoppedChild(k) != NIL then SetWpid(k, pid) else k;
    if k1.table[k1.current].pid == 1 then Foster(k1, k1.zombies) else k1
  }

  function WaitEnding(k: KState, pid: int, noHang: bool, untraced: bool): WaitEnd {
    if StoppedChild(k) != NIL && untraced then Acknowledged(StoppedChild(k))
    else
      var k1 := WaitLook(k, pid);
      if !HasChild(k1, pid) then NoChild
      else
        var w := ZombieFor(k1, WaitTarget(k1, pid));
        if w != NIL then Reaps(w) else if noHang then WouldBlock else Blocks
  }

  /** The slot is free again; its PID goes on record. */
  function Reap(k: KState, w: Slot): KState {
    k.(table := k.table[w := k.table[w].(state := Unused)],
       zombies := Without(k.zombies, w),
       reaped := k.reaped + [k.table[w].pid])
  }

  function WaitStep(k: KState, pid: int, noHang: bool, untraced: bool, resumed: bool): KState
    requires Good(k) && !k.faulted && k.current != 0
  {
    if pid == 0 || pid < -1 then k
    else
      var k0 := if resumed then k else SetWpid(k, pid);
      GoodSetWpid(k, pid);
      var k1 := WaitLook(k0, pid);
      GoodLook(k0, pid);
      match WaitEnding(k0, pid, noHang, untraced)
      case Acknowledged(_) => SetWpid(k0, pid)
      case NoChild => k1
      case Reaps(w) => Reap(k1, w)
      case WouldBlock => k1
      case Blocks => SleepStep(k1, STATE_CHANGE)
  }

  // ----- preservation

  lemma GoodSetWpid(k: KState, pid: int)
    requires Good(k)
    ensures Good(SetWpid(k, pid)) && SetWpid(k, pid).current == k.current && SetWpid(k, pid).faulted == k.faulted
  {
    hide Good, Inv, Calm;
    GoodInv(k);
    SlotSound(k, k.current, {});
    CalmPut(k, k.current, k.table[k.current].(wpid := pid), {});
    GoodCalm(k, SetWpid(k, pid));
  }

  lemma {:induction false} CalmFoster(k: KState, zombies: seq<Slot>)
    requires Inv(k, {})
    ensures Calm(k, Foster(k, zombies), {})
    decreases |zombies|
  {
    hide Inv, Calm;
    if zombies == [] {
      CalmSelf(k, {});
    } else {
      var k1 := FosterOne(k, zombies[0]);
      CalmAdopt(k, zombies[0], {});
      CalmSelf(k, {});
      CalmInv(k, k1, {});
      CalmFoster(k1, zombies[1..]);
      CalmThen(k, k1, Foster(k1, zombies[1..]), {});
    }
  }

  lemma GoodLook(k: KState, pid: int)
    requires Good(k)
    ensures var k' := WaitLook(k, pid);
      Good(k') && k'.current == k.current && k'.faulted == k.faulted && k'.zombies == k.zombies
  {
    hide Good, Inv, Calm, Foster, StoppedChild;
    GoodSetWpid(k, pid);
    var k1 := if StoppedChild(k) != NIL then SetWpid(k, pid) else k;
    if k1.table[k1.current].pid == 1 {
      GoodInv(k1);
      CalmFoster(k1, k1.zombies);
      var k2 := Foster(k1, k1.zombies);
      GoodCalm(k1, k2);
      CalmQueues(k1, k2, {});
      CalmSteady(k1, k2);
      SteadySame(k1, k2);
    }
  }

  lemma ZombieSlot(k: KState, w: Slot)
    requires Inv(k, {}) && w in k.zombies
    ensures w != 0 && k.table[w].state == Killed && k.table[w].event == k.table[w].pid
    ensures w !in k.ready && w !in k.waiting && w !in k.suspended
  {
    EntrySound(k, w);
    hide NoDup, InOrder, Data;
  }

  lemma ReapData(k: KState, w: Slot)
    requires Data(k) && w != 0 && k.table[w].state == Killed
    ensures Data(Reap(k, w))
  {
    var t' := Reap(k, w).table;
    assert forall j: Slot :: j != w ==> t'[j] == k.table[j];
    ReapJobs(k.table, w);
    ReapReaped(k, w);
    hide Jobs, Reaped;
  }

  lemma ReapJobs(t: Table, w: Slot)
    requires Jobs(t)
    ensures Jobs(t[w := t[w].(state := Unused)])
  {
  }

  lemma ReapReaped(k: KState, w: Slot)
    requires Reaped(k.table, k.nextPid, k.reaped) && Pids(k.table, k.nextPid) && w != 0 && Occupied(k.table[w])
    ensures Reaped(Reap(k, w).table, k.nextPid, Reap(k, w).reaped)
  {
    NoDupAppend(k.reaped, k.table[w].pid);
    hide NoDup;
  }

  lemma ReapQueues(k: KState, w: Slot)
    requires Queues(k, {}) && w in k.zombies && k.table[w].state == Killed && w != 0
    ensures Queues(Reap(k, w), {})
  {
    WithoutNoDup(k.zombies, w);
    hide NoDup;
  }

  lemma GoodReap(k: KState, w: Slot)
    requires Good(k) && !k.faulted && w in k.zombies
    ensures Good(Reap(k, w))
  {
    hide Queues, Data, InOrder;
    GoodInv(k);
    ZombieSlot(k, w);
    ReapQueues(k, w);
    ReapData(k, w);
    InOrderPut(k, w, k.table[w].(state := Unused));
  }

  lemma GoodWait(k: KState, pid: int, noHang: bool, untraced: bool, resumed: bool)
    requires Good(k) && !k.faulted && k.current != 0
    ensures Good(WaitStep(k, pid, noHang, untraced, resumed))
  {
    hide Good, Inv, SleepStep, WaitLook, Reap, StoppedChild, HasChild, WaitTarget;
    if pid != 0 && pid >= -1 {
      GoodSetWpid(k, pid);
      var k0 := if resumed then k else SetWpid(k, pid);
      GoodLook(k0, pid);
      GoodSetWpid(k0, pid);
      var k1 := WaitLook(k0, pid);
      match WaitEnding(k0, pid, noHang, untraced)
      case Acknowledged(_) =>
      case NoChild =>
      case Reaps(w) => GoodReap(k1, w);
      case WouldBlock =>
      case Blocks => GoodSleep(k1, STATE_CHANGE);
    }
  }

  // ----- whom wait reaps

  /** The slots whose zombie `pid` names, for a caller whose children include it. */
  lemma ZombieForPid(k: KState, pid: int, w: Slot)
    requires Inv(k, {}) && ZombieFor(k, pid) == w
    ensures w != 0 && w in k.zombies && k.table[w].state == Killed && k.table[w].pid == pid
  {
    hide Inv;
    ZombieSlot(k, w);
  }

  lemma PidOwner(k: KState, pid: int, a: Slot, b: Slot)
    requires Inv(k, {}) && a != 0 && b != 0 && Occupied(k.table[a]) && Occupied(k.table[b])
    requires k.table[a].pid == k.table[b].pid
    ensures a == b
  {
    hide Queues, Jobs, InOrder, Reaped, SignalSets, Running1;
  }

  /** wait reaps only a dead process that is, at that moment, a child of the caller and, if
      the caller named one, the process it named. */
  lemma WaitReapsOwnDeadChild(k: KState, pid: int, noHang: bool, untraced: bool, w: Slot)
    requires Good(k) && !k.faulted && k.current != 0 && pid != 0 && -1 <= pid
    requires WaitEnding(k, pid, noHang, untraced) == Reaps(w)
    ensures var k1 := WaitLook(k, pid);
      && w != 0 && k1.table[w].state == Killed && w in k1.zombies
      && k1.table[w].ppid == k1.table[k1.current].pid
      && (pid != -1 ==> k1.table[w].pid == pid)
  {
    hide Good, Inv, WaitLook, StoppedChild;
    var k1 := WaitLook(k, pid);
    GoodLook(k, pid);
    GoodInv(k1);
    ZombieForPid(k1, WaitTarget(k1, pid), w);
    if pid == -1 {
      var z := FirstZombieChild(k1, 1);
      if z == NIL {
        PidPositive(k1, w);
        assert false;
      } else {
        PidOwner(k1, k1.table[w].pid, w, z);
      }
    } else {
      PidOwner(k1, pid, w, GetProcess(k1, pid));
    }
  }

  /** Conversely, a dead child that the caller asks for is reaped, unless the pass ends early
      with a stopped child. */
  lemma WaitFindsDeadChild(k: KState, pid: int, noHang: bool, untraced: bool, c: Slot)
    requires Good(k) && !k.faulted && k.current != 0 && pid != 0 && -1 <= pid
    requires !(StoppedChild(k) != NIL && untraced)
    requires var k1 := WaitLook(k, pid);
      && c != 0 && k1.table[c].state == Killed && k1.table[c].ppid == k1.table[k1.current].pid
      && (pid == -1 || k1.table[c].pid == pid)
    ensures WaitEnding(k, pid, noHang, untraced).Reaps?
  {
    hide Good, Inv, WaitLook, StoppedChild;
    var k1 := WaitLook(k, pid);
    GoodLook(k, pid);
    GoodInv(k1);
    DeadIsZombie(k1, c);
    if pid == -1 {
      var z := FirstZombieChild(k1, 1);
      ZombieSlot(k1, z);
      ZombieListed(k1, z);
    } else {
      PidOwner(k1, pid, c, GetProcess(k1, pid));
      ZombieListed(k1, c);
    }
  }

  lemma DeadIsZombie(k: KState, c: Slot)
    requires Inv(k, {}) && c != 0 && k.table[c].state == Killed
    ensures c in k.zombies
  {
    hide NoDup, Data, InOrder;
  }

  lemma ZombieListed(k: KState, z: Slot)
    requires Inv(k, {}) && z in k.zombies
    ensures ZombieFor(k, k.table[z].pid) != NIL
  {
    hide Inv;
    ZombieSlot(k, z);
    var a :| 0 <= a < |k.zombies| && k.zombies[a] == z;
  }

  /** How a pass of wait ends, for every state: with the stopped child that the caller has been told of,
      if it asked for those; without any child; with a dead child; or at once or asleep, as asked,
      because no child that is meant is dead. Children are those after init's adoptions. */
  lemma WaitEndsIff(k: KState, pid: int, noHang: bool, untraced: bool)
    requires Good(k) && !k.faulted && k.current != 0 && pid != 0 && -1 <= pid
    ensures var e, k1 := WaitEnding(k, pid, noHang, untraced), WaitLook(k, pid);
      && (e.Acknowledged? <==> untraced && StoppedChild(k) != NIL)
      && (e.Acknowledged? ==> e.job == StoppedChild(k))
      && (!e.Acknowledged? ==>
            && (e.NoChild? <==> forall c: Slot :: !Asked(k1, pid, c))
            && (e.Reaps? <==> exists c: Slot :: Asked(k1, pid, c) && k1.table[c].state == Killed)
            && (e.WouldBlock? ==> noHang) && (e.Blocks? ==> !noHang))
  {
    hide Good, Inv, WaitLook, StoppedChild;
    var k1 := WaitLook(k, pid);
    GoodLook(k, pid);
    GoodInv(k1);
    var e := WaitEnding(k, pid, noHang, untraced);
    AskedChild(k1, pid);
    hide HasChild, WaitTarget, ZombieFor;
    if e.Reaps? {
      WaitReapsOwnDeadChild(k, pid, noHang, untraced, e.child);
      assert Asked(k1, pid, e.child);
    }
    if !e.Acknowledged? && exists c: Slot :: Asked(k1, pid, c) && k1.table[c].state == Killed {
      var c: Slot :| Asked(k1, pid, c) && k1.table[c].state == Killed;
      WaitFindsDeadChild(k, pid, noHang, untraced, c);
    }
  }

  /** A child of the caller that the call is about. */
  predicate Asked(k: KState, pid: int, c: Slot) {
    c != 0 && k.table[c].state != Unused && k.table[c].ppid == k.table[k.current].pid
    && (pid == -1 || k.table[c].pid == pid)
  }

  lemma AskedChild(k: KState, pid: int)
    requires Inv(k, {}) && pid != 0 && -1 <= pid
    ensures HasChild(k, pid) <==> exists c: Slot :: Asked(k, pid, c)
  {
    hide Inv, FindPid;
    if pid == -1 {
      if c: Slot :| Asked(k, pid, c) {
        assert 1 <= c && Occupied(k.table[c]);
      }
      if HasChild(k, pid) {
        var i: Slot :| 1 <= i && Occupied(k.table[i]) && k.table[i].ppid == k.table[k.current].pid;
        assert Asked(k, pid, i);
      }
    } else {
      var p := GetProcess(k, pid);
      if c: Slot :| Asked(k, pid, c) {
        PidOwner(k, pid, c, p);
      }
      if HasChild(k, pid) {
        assert Asked(k, pid, p);
      }
    }
  }

  /** The stopped child is a process that the caller has been told of by PID and that is still stopped. */
  lemma StoppedChildIff(k: KState, p: Slot)
    requires Good(k)
    ensures StoppedChild(k) == p <==>
      p != 0 && k.table[p].state == Stopped && k.table[p].pid == k.table[k.current].wpid && k.table[p].pid > 1
  {
    hide Good, FindPid;
    GoodInv(k);
    if p != 0 {
      StoppedIsListed(k, p);
    }
    var x := GetProcess(k, k.table[k.current].wpid);
    if p != 0 && k.table[p].state == Stopped && k.table[p].pid == k.table[k.current].wpid {
      PidOwner(k, k.table[p].pid, p, x);
    }
  }

  lemma StoppedIsListed(k: KState, p: Slot)
    requires Inv(k, {}) && p != 0
    ensures p in k.suspended <==> k.table[p].state == Stopped
  {
    hide NoDup, Data, InOrder;
  }
}
