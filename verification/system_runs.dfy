/** Whole runs of the kernel with the pages of its processes. */
module SystemRuns {
  import opened Sequences
  import opened ProcessModel
  import opened ProcessInvariant
  import opened KernelSteps
  import opened ProcessCalls
  import opened KernelRuns
  import opened MemoryManager
  import opened PageOwnership
  import opened AddressSpaces

  datatype System = System(k: KState, p: Pages)

  /** What the kernel sees of a fork: the copy also fails if there is no page for the program. */
  function Actual(s: System, a: Action): Action {
    if a.Fork? then Fork(a.copied && |s.p.free| >= 3) else a
  }

  /** fork needs two pages for the tables and the environment, or the kernel halts. */
  predicate CanStep(s: System, a: Action) {
    EventOf(s.k, Actual(s, a)).Born? ==> |s.p.free| >= 2
  }

  function SystemStep(s: System, a: Action): System
    requires Good(s.k) && |s.p.holdings| == TABLE_SIZE
  {
    if !CanStep(s, a) then s
    else
      System(Step(s.k, Actual(s, a)),
             match EventOf(s.k, Actual(s, a))
             case NoChange => s.p
             case Born(i, _) => ForkPages(s.p, i, a.copied)
             case Freed(w) => ReapPages(s.p, w))
  }

  predicate Fits(state: State, h: Holding) {
    match state
    case Unused => h == Nothing
    case Init => h.Leftover?
    case _ => h.Space?
  }

  /** Each slot holds what its state calls for; the idle process has no pages of its own. */
  ghost predicate Furnished(s: System) {
    && Good(s.k) && |s.p.holdings| == TABLE_SIZE
    && s.p.holdings[0] == Nothing
    && forall i: Slot :: i != 0 ==> Fits(s.k.table[i].state, s.p.holdings[i])
  }

  lemma FitsSame(p: Process, q: Process, h: Holding)
    requires SameSlot(p, q) && Fits(p.state, h)
    ensures Fits(q.state, h)
  {
  }

  lemma OneSlotFits(s: System, s': System, w: Slot)
    requires Furnished(s) && Good(s'.k) && OtherSlots(s.k, s'.k, w) && w != 0
    requires |s'.p.holdings| == TABLE_SIZE && s'.p.holdings == s.p.holdings[w := s'.p.holdings[w]]
    requires Fits(s'.k.table[w].state, s'.p.holdings[w])
    ensures Furnished(s')
  {
    hide Good, Fits, SameSlot;
    forall i: Slot | i != 0
      ensures Fits(s'.k.table[i].state, s'.p.holdings[i])
    {
      if i != w {
        FitsSame(s.k.table[i], s'.k.table[i], s.p.holdings[i]);
      }
    }
  }

  lemma FurnishedStep(s: System, a: Action)
    requires Furnished(s)
    ensures Furnished(SystemStep(s, a))
  {
    hide Good, Ages, EventOf, Fits, Step, SlotsSame, OtherSlots;
    if CanStep(s, a) {
      var b := Actual(s, a);
      var s' := SystemStep(s, a);
      SlotLifeCycle(s.k, b);
      GoodStep(s.k, b);
      match EventOf(s.k, b)
      case NoChange => NoSlotFits(s, s');
      case Born(i, complete) =>
        BornComplete(s, a, i, complete);
        FitsNew(s, s', a, i, complete);
        OneSlotFits(s, s', i);
      case Freed(w) =>
        FitsFreed(s', w);
        OneSlotFits(s, s', w);
    }
  }

  /** Every step keeps each page of memory owned exactly once, and their number. */
  lemma StepKeepsPages(kernEnd: bv64, s: System, a: Action)
    requires Furnished(s) && Partition(kernEnd, s.p)
    ensures Partition(kernEnd, SystemStep(s, a).p) && Total(SystemStep(s, a).p) == Total(s.p)
  {
    hide Good, Ages, Partition, EventOf, Fits, Step, SlotsSame, OtherSlots, Total;
    if CanStep(s, a) {
      var b := Actual(s, a);
      SlotLifeCycle(s.k, b);
      match EventOf(s.k, b)
      case NoChange =>
      case Born(i, complete) =>
        FitsUnused(s, i);
        BornComplete(s, a, i, complete);
        ForkKeepsPartition(kernEnd, s.p, i, a.copied);
        ForkKeepsTotal(s.p, i, a.copied);
      case Freed(w) =>
        ReapKeepsPartition(kernEnd, s.p, w);
        ReapKeepsTotal(s.p, w);
    }
  }

  lemma FitsUnused(s: System, i: Slot)
    requires Furnished(s) && i != 0 && s.k.table[i].state == Unused
    ensures s.p.holdings[i] == Nothing
  {
    hide Good;
  }

  lemma FitsFreed(s: System, w: Slot)
    requires |s.p.holdings| == TABLE_SIZE && s.k.table[w].state == Unused && s.p.holdings[w] == Nothing
    ensures Fits(s.k.table[w].state, s.p.holdings[w])
  {
  }

  lemma BornComplete(s: System, a: Action, i: Slot, complete: bool)
    requires EventOf(s.k, Actual(s, a)) == Born(i, complete)
    ensures a.Fork? && complete == (a.copied && |s.p.free| >= 3)
  {
    hide Enabled, FindUnused;
  }

  lemma FitsNew(s: System, s': System, a: Action, i: Slot, complete: bool)
    requires a.Fork? && complete == (a.copied && |s.p.free| >= 3) && |s.p.free| >= 2 && |s.p.holdings| == TABLE_SIZE
    requires s'.p == ForkPages(s.p, i, a.copied)
    requires s'.k.table[i].state == if complete then Ready else Init
    ensures Fits(s'.k.table[i].state, s'.p.holdings[i]) && s'.p.holdings == s.p.holdings[i := s'.p.holdings[i]]
  {
  }

  lemma NoSlotFits(s: System, s': System)
    requires Furnished(s) && Good(s'.k) && SlotsSame(s.k, s'.k) && s'.p == s.p
    ensures Furnished(s')
  {
    hide Good, Fits, SameSlot;
    forall i: Slot | i != 0
      ensures Fits(s'.k.table[i].state, s'.p.holdings[i])
    {
      FitsSame(s.k.table[i], s'.k.table[i], s.p.holdings[i]);
    }
  }

  /** A process that calls fork has an address space to copy. */
  lemma ForkHasSource(s: System, a: Action)
    requires Furnished(s) && EventOf(s.k, Actual(s, a)).Born?
    ensures s.p.holdings[s.k.current].Space?
  {
    var k := s.k;
    assert Enabled(k, Actual(s, a));
    RunningSlot(k);
    hide Good, FindUnused, Enabled;
  }

  lemma RunningSlot(k: KState)
    requires Good(k) && !k.faulted
    ensures k.table[k.current].state == Running
  {
    hide Queues, Jobs, InOrder, Reaped, SignalSets, Pids;
  }

  // ----- runs

  function SystemRun(s: System, acts: seq<Action>): (r: System)
    requires Furnished(s)
    ensures Furnished(r)
    decreases |acts|
  {
    if acts == [] then s
    else
      FurnishedStep(s, acts[0]);
      SystemRun(SystemStep(s, acts[0]), acts[1..])
  }

  lemma {:induction false} RunKeepsPages(kernEnd: bv64, s: System, acts: seq<Action>)
    requires Furnished(s) && Partition(kernEnd, s.p)
    ensures Partition(kernEnd, SystemRun(s, acts).p) && Total(SystemRun(s, acts).p) == Total(s.p)
    decreases |acts|
  {
    hide Good, Fits, Partition, SystemStep, Total;
    if acts != [] {
      StepKeepsPages(kernEnd, s, acts[0]);
      FurnishedStep(s, acts[0]);
      RunKeepsPages(kernEnd, SystemStep(s, acts[0]), acts[1..]);
    }
  }

  /** The system after boot, with the first user process in slot 1. */
  function BootSystem(free: seq<bv64>): System
    requires |free| >= 3
  {
    System(Boot(), ForkPages(Pages(free, seq(TABLE_SIZE, i => Nothing)), 1, true))
  }

  lemma BootHolds(free: seq<bv64>)
    requires |free| >= 3
    ensures Furnished(BootSystem(free))
  {
    GoodBoot();
    BootTable();
    hide Good, Boot;
  }

  lemma FurnishedSlots(kernEnd: bv64, s: System)
    requires Furnished(s) && Partition(kernEnd, s.p)
    ensures forall i: Slot :: i != 0 && s.k.table[i].state != Unused && s.k.table[i].state != Init ==>
      var h := s.p.holdings[i];
      h.Space? && h.tables != h.program && h.tables != h.env && h.program != h.env
  {
    hide Good, Partition;
    forall i: Slot | i != 0 && s.k.table[i].state != Unused && s.k.table[i].state != Init
      ensures s.p.holdings[i].Space?
      ensures var h := s.p.holdings[i]; h.tables != h.program && h.tables != h.env && h.program != h.env
    {
      assert Fits(s.k.table[i].state, s.p.holdings[i]);
      ThreePages(kernEnd, s.p, i);
    }
  }

  lemma BootPages(kernEnd: bv64, free: seq<bv64>)
    requires |free| >= 3 && NoDup(free) && forall q: bv64 :: q in free <==> PageOk(kernEnd, q)
    ensures Partition(kernEnd, BootSystem(free).p) && Total(BootSystem(free).p) == |free|
  {
    hide PageOk, NoDup, Owners, HeldCount, Boot;
    var nothing := seq(TABLE_SIZE, i => Nothing);
    BootPartition(kernEnd, free, nothing);
    ForkKeepsPartition(kernEnd, Pages(free, nothing), 1, true);
    ForkKeepsTotal(Pages(free, nothing), 1, true);
    NothingHeld(nothing);
  }

  lemma {:induction false} NothingHeld(h: seq<Holding>)
    requires forall i :: 0 <= i < |h| ==> h[i] == Nothing
    ensures HeldCount(h) == 0
  {
    if h != [] {
      NothingHeld(h[1..]);
    }
  }

  /** In every state that a run from boot can reach, each complete process owns three different
      pages; no page has two owners; no owned page is free; every page of memory is owned; and
      the free pages are all but three for each process and one for each failed fork. */
  lemma ReachableOwnership(kernEnd: bv64, free: seq<bv64>, acts: seq<Action>)
    requires |free| >= 3 && NoDup(free) && forall q: bv64 :: q in free <==> PageOk(kernEnd, q)
    ensures Furnished(BootSystem(free))
    ensures var s := SystemRun(BootSystem(free), acts);
      forall i: Slot :: i != 0 && s.k.table[i].state != Unused && s.k.table[i].state != Init ==>
        var h := s.p.holdings[i];
        h.Space? && h.tables != h.program && h.tables != h.env && h.program != h.env
    ensures var p := SystemRun(BootSystem(free), acts).p;
      && NoDup(p.free)
      && (forall i: Slot, q: bv64 :: q in PagesOf(p.holdings[i]) ==> PageOk(kernEnd, q) && q !in p.free)
      && (forall i: Slot, j: Slot, q: bv64 :: q in PagesOf(p.holdings[i]) && q in PagesOf(p.holdings[j]) ==> i == j)
      && (forall q: bv64 :: PageOk(kernEnd, q) ==> q in p.free || exists i: Slot :: q in PagesOf(p.holdings[i]))
      && |p.free| + 3 * CountSpaces(p.holdings) + CountLeftovers(p.holdings) == |free|
  {
    hide Good, BootSystem, SystemRun, PageOk, NoDup, Partition, PagesOf, Fits;
    BootHolds(free);
    BootPages(kernEnd, free);
    var s0 := BootSystem(free);
    RunKeepsPages(kernEnd, s0, acts);
    var s := SystemRun(s0, acts);
    FurnishedSlots(kernEnd, s);
    Ownership(kernEnd, s.p);
    HeldCountIs(s.p.holdings);
  }
}
