/** What a fork that fails leaves behind for wait. */
module FailedFork {
  import opened ProcessModel
  import opened ProcessInvariant
  import opened KernelSteps
  import opened ProcessCalls
  import opened ProcessWait
  import opened KernelRuns

  /** The same half-made process, still a child of the same process or by now of init. */
  predicate Lingers(p: Process, q: Process) {
    q.state == Init && q.pid == p.pid && (q.ppid == p.ppid || q.ppid == 1)
  }

  lemma StepLingers(k: KState, a: Action, i: Slot)
    requires Good(k) && k.table[i].state == Init
    ensures Lingers(k.table[i], Step(k, a).table[i])
  {
    hide Good, Ages, EventOf, Step;
    SlotLifeCycle(k, a);
  }

  /** Nothing ever takes a half-made process out of the table. */
  lemma {:induction false} RunLingers(k: KState, acts: seq<Action>, i: Slot)
    requires Good(k) && k.table[i].state == Init
    ensures Lingers(k.table[i], Run(k, acts).table[i])
    decreases |acts|
  {
    hide Good, Step;
    if acts != [] {
      StepLingers(k, acts[0], i);
      GoodStep(k, acts[0]);
      RunLingers(Step(k, acts[0]), acts[1..], i);
    }
  }

  lemma {:induction false} FosterOthers(k: KState, zombies: seq<Slot>, i: Slot)
    requires i !in zombies
    ensures Foster(k, zombies).table[i] == k.table[i] && Foster(k, zombies).current == k.current
    ensures Foster(k, zombies).table[k.current].pid == k.table[k.current].pid
    decreases |zombies|
  {
    hide GetProcess;
    if zombies != [] {
      FosterOthers(FosterOne(k, zombies[0]), zombies[1..], i);
    }
  }

  /** A half-made child counts as a child, although it can never die. */
  lemma WaitMeetsChild(k: KState, i: Slot, noHang: bool, untraced: bool)
    requires Good(k) && i != 0 && k.table[i].state == Init && k.table[i].ppid == k.table[k.current].pid
    requires i != k.current
    ensures !WaitEnding(k, -1, noHang, untraced).NoChild?
  {
    hide Good, Foster, StoppedChild, WaitTarget, ZombieFor;
    HalfMade(k, i);
    var k1 := if StoppedChild(k) != NIL then SetWpid(k, -1) else k;
    FosterOthers(k1, k1.zombies, i);
    assert WaitLook(k, -1).table[i] == k.table[i];
  }

  lemma HalfMade(k: KState, i: Slot)
    requires Good(k) && i != 0 && k.table[i].state == Init
    ensures i !in k.zombies
  {
    GoodInv(k);
    UnusedSlot(k, i);
  }

  /** After a fork whose copy fails, on every run: the slot stays half-made, and a wait for any
      child by its parent never says that there is no child. */
  lemma FailedForkKeepsWaiting(k: KState, acts: seq<Action>, noHang: bool, untraced: bool)
    requires Good(k) && !k.faulted && FindUnused(k.table, 1) != NIL
    ensures Good(ForkStep(k, false))
    ensures var i := FindUnused(k.table, 1); var k' := Run(ForkStep(k, false), acts);
      && k'.table[i].state == Init && k'.table[i].pid == k.nextPid
      && (k'.table[i].ppid == k.table[k.current].pid || k'.table[i].ppid == 1)
      && (!k'.faulted && k'.table[k'.current].pid == k'.table[i].ppid ==>
            !WaitEnding(k', -1, noHang, untraced).NoChild?)
  {
    hide Good, ForkStep, Run, FindUnused, WaitEnding, OtherSlots, Ages;
    GoodFork(k, false);
    ForkEvent(k, false);
    var i := FindUnused(k.table, 1);
    var k' := Run(ForkStep(k, false), acts);
    RunLingers(ForkStep(k, false), acts, i);
    if !k'.faulted && k'.table[k'.current].pid == k'.table[i].ppid {
      RunningNow(k', i);
      WaitMeetsChild(k', i, noHang, untraced);
    }
  }

  lemma RunningNow(k: KState, i: Slot)
    requires Good(k) && !k.faulted && k.table[i].state == Init
    ensures i != k.current
  {
    hide Inv;
  }
}
