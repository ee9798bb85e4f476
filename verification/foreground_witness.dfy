/** Three runs from boot with a common beginning: init waits for its child, the child forks. */
module ForegroundWitness {
  import opened Sequences
  import opened ProcessModel
  import opened ProcessInvariant
  import opened WakeupProofs
  import opened PendingProofs
  import opened ProcessEffects
  import opened Scheduler
  import opened KernelSteps
  import opened ProcessCalls
  import opened ProcessWait
  import opened KernelRuns
  import opened ExitEffects
  import opened StopEffects
  import opened KillEffects
  import opened Foreground
  import opened ForegroundRuns
  import opened LostWakeups
  import opened WitnessRuns

  // ----- the common beginning

  /** Init asleep in wait. */
  function Waiter(): Process {
    First(Asleep, 0).(event := STATE_CHANGE, wpid := -1)
  }

  /** A child of the child of init. */
  function Grandchild(s: State, arrival: nat): Process {
    Child(3, s, arrival).(ppid := 2)
  }

  function W3(): KState {
    Running4(Four(Idle(Ready), Waiter(), Child(2, Running, 1), Blank()), [], [1], 2, 2, 3, 2, 2)
  }

  /** The state in which init's wait calls the scheduler. */
  function W2(): KState {
    A2().(table := Four(Idle(Ready), Waiter(), Child(2, Ready, 1), Blank()), waiting := [1])
  }

  lemma InitLooks()
    ensures var k := SetWpid(A2(), -1);
      && WaitLook(k, -1) == k && WaitEnding(k, -1, false, false) == Blocks
      && FallAsleep(k, STATE_CHANGE) == W2()
  {
    hide Four, DefaultHandlers;
    var i, p, c := Idle(Ready), First(Running, 0), Child(2, Ready, 1);
    var p1 := p.(wpid := -1);
    FourAt(i, p, c, Blank());
    FourSet(i, p, c, Blank(), p1);
    FourAt(i, p1, c, Blank());
    FourSet(i, p1, c, Blank(), p1.(event := STATE_CHANGE));
    FourAt(i, p1.(event := STATE_CHANGE), c, Blank());
    FourSet(i, p1.(event := STATE_CHANGE), c, Blank(), Waiter());
    var k := SetWpid(A2(), -1);
    assert k.table[2].ppid == k.table[k.current].pid;
    assert HasChild(k, -1);
  }

  lemma WaitCalls()
    requires Good(A2())
    ensures Inv(W2(), {}) && Step(A2(), Wait(-1, false, false, false)) == Schedule(W2())
  {
    hide Good, Inv, Four, DefaultHandlers, WaitLook, WaitEnding, FallAsleep, Schedule;
    var k := SetWpid(A2(), -1);
    InitLooks();
    GoodSetWpid(A2(), -1);
    FallAsleepReady(k, STATE_CHANGE);
  }

  lemma InitBlocks()
    requires Good(A2())
    ensures Step(A2(), Wait(-1, false, false, false)) == W3()
  {
    hide Good, Inv, Four, DefaultHandlers, Schedule, Step;
    WaitCalls();
    var i, p, c := Idle(Ready), Waiter(), Child(2, Ready, 1);
    FourAt(i, p, c, Blank());
    QuietSchedule(W2());
    FourSet(i, p, c, Blank(), Child(2, Running, 1));
  }

  function W4(): KState {
    Running4(Four(Idle(Ready), Waiter(), Child(2, Running, 1), Grandchild(Ready, 2)), [3], [1], 2, NIL, 4, 3, 2)
  }

  lemma ChildForks()
    requires Good(W3())
    ensures Step(W3(), Fork(true)) == W4()
  {
    hide Good, Four, DefaultHandlers, FindUnused, ForkStep;
    FourAt(Idle(Ready), Waiter(), Child(2, Running, 1), Blank());
    FreeSlot(W3().table, 3);
    ForkExact(W3(), 3);
    FourSet(Idle(Ready), Waiter(), Child(2, Running, 1), Blank(), Grandchild(Ready, 2));
  }

  lemma Beginning(rest: seq<Action>)
    ensures Good(Boot()) && Good(W4())
    ensures Run(Boot(), [Timer, Fork(true), Wait(-1, false, false, false), Fork(true)] + rest) == Run(W4(), rest)
  {
    hide Good, A1, A2, W3, W4, Boot, Step;
    var w := Wait(-1, false, false, false);
    BootTick();
    Leads(Boot(), Timer, A1(), [Fork(true), w, Fork(true)] + rest);
    FirstFork();
    Leads(A1(), Fork(true), A2(), [w, Fork(true)] + rest);
    InitBlocks();
    Leads(A2(), w, W3(), [Fork(true)] + rest);
    ChildForks();
    Leads(W3(), Fork(true), W4(), rest);
    assert [Timer, Fork(true), w, Fork(true)] + rest == [Timer] + ([Fork(true), w, Fork(true)] + rest);
    assert [Fork(true), w, Fork(true)] + rest == [Fork(true)] + ([w, Fork(true)] + rest);
    assert [w, Fork(true)] + rest == [w] + ([Fork(true)] + rest);
  }

  // ----- a child stops its parent and exits

  /** The child of init with a stop signal pending. */
  function Sentenced(s: State, arrival: nat): Process {
    Child(2, s, arrival).(signals := {SIGSTOP})
  }

  function W5(): KState {
    W4().(table := Four(Idle(Ready), Waiter(), Sentenced(Running, 1), Grandchild(Ready, 2)))
  }

  lemma StopsItself()
    requires Good(W4())
    ensures Step(W4(), KillCall(2, SIGSTOP)) == W5()
  {
    hide Good, Four, DefaultHandlers;
    var i, p, c, d := Idle(Ready), Waiter(), Child(2, Running, 1), Grandchild(Ready, 2);
    FourAt(i, p, c, d);
    assert GetProcess(W4(), 2) == 2;
    FourSet(i, p, c, d, Sentenced(Running, 1));
    assert Post({}, SIGSTOP) == {SIGSTOP};
  }

  /** A timer tick that wakes nobody. */
  lemma TickCalls(k: KState)
    requires Good(k) && !k.faulted && k.ready != [] && forall j :: j in k.waiting ==> k.table[j].event != SLEEP_SYSCALL
    ensures Inv(Preempt(k), {}) && Step(k, Timer) == Schedule(Preempt(k))
  {
    hide Good, Inv, Schedule, Preempt;
    PreemptReady(k);
  }

  function W6(): KState {
    Running4(Four(Idle(Ready), Waiter(), Sentenced(Ready, 3), Grandchild(Running, 2)), [2], [1], 3, 3, 4, 4, 3)
  }

  lemma GrandchildRuns()
    requires Good(W5())
    ensures Step(W5(), Timer) == W6()
  {
    hide Good, Inv, Four, DefaultHandlers, Schedule, Step;
    var i, p, c, d := Idle(Ready), Waiter(), Sentenced(Running, 1), Grandchild(Ready, 2);
    var c' := Sentenced(Ready, 3);
    FourAt(i, p, c, d);
    FourSet(i, p, c, d, c');
    FourAt(i, p, c', d);
    TickCalls(W5());
    var k := Preempt(W5());
    assert k.ready == [3, 2];
    QuietSchedule(k);
    FourSet(i, p, c', d, Grandchild(Running, 2));
  }

  /** The state in which the next tick calls the scheduler. */
  function D0(): KState {
    W6().(table := Four(Idle(Ready), Waiter(), Sentenced(Ready, 3), Grandchild(Ready, 4)), ready := [2, 3],
          arrivals := 5)
  }

  /** The child stopped, before its parent has been woken and after. */
  function Frozen(pending: set<Signal>): Process {
    Child(2, Stopped, 3).(signals := pending, status := StoppedStatus(0), jobSpec := 1)
  }

  function Notified(p: Process): Process {
    p.(signals := {SIGCHLD}, status := StoppedStatus(0), wpid := 2, jobs := 1)
  }

  /** Init woken from its wait. */
  function Woken(s: State): Process {
    Notified(First(s, 5))
  }

  function D1(pending: set<Signal>): KState {
    D0().(table := Four(Idle(Ready), Woken(Ready), Frozen(pending), Grandchild(Ready, 4)), ready := [3, 1],
          waiting := [], suspended := [2], arrivals := 6)
  }

  function W7(): KState {
    D1({}).(table := Four(Idle(Ready), Woken(Ready), Frozen({}), Grandchild(Running, 4)), ready := [1], schedules := 4)
  }

  lemma TickBeforeStop()
    requires Good(W6())
    ensures Inv(D0(), {}) && Step(W6(), Timer) == Schedule(D0())
  {
    hide Good, Inv, Four, DefaultHandlers, Schedule, Step;
    var i, p, c, d := Idle(Ready), Waiter(), Sentenced(Ready, 3), Grandchild(Running, 2);
    FourAt(i, p, c, d);
    FourSet(i, p, c, d, Grandchild(Ready, 4));
    TickCalls(W6());
    assert Preempt(W6()) == D0();
  }

  /** The child off the ready queue with its status. */
  function D2(): KState {
    D0().(ready := [3], table := Four(Idle(Ready), Waiter(), Halting(), Grandchild(Ready, 4)))
  }

  function Halting(): Process {
    Sentenced(Ready, 3).(status := StoppedStatus(0))
  }

  function D3(): KState {
    D2().(table := Four(Idle(Ready), Notified(Waiter()), Halting().(jobSpec := 1), Grandchild(Ready, 4)))
  }

  lemma StopReported()
    ensures GetProcess(D2(), 1) == 1 && ReportStop(D2(), 2, 1) == D3()
  {
    hide Four, DefaultHandlers, StoppedStatus;
    var i, p, c, d := Idle(Ready), Waiter(), Halting(), Grandchild(Ready, 4);
    FourAt(i, p, c, d);
    assert p.signals + {SIGCHLD} == {SIGCHLD};
    var p1 := p.(signals := {SIGCHLD}, status := StoppedStatus(0));
    var p2 := p1.(wpid := 2);
    FourSet(i, p, c, d, p1);
    FourAt(i, p1, c, d);
    FourSet(i, p1, c, d, p2);
    FourAt(i, p2, c, d);
    FourSet(i, p2, c, d, p2.(jobs := 1));
    FourAt(i, p2.(jobs := 1), c, d);
    FourSet(i, p2.(jobs := 1), c, d, c.(jobSpec := 1));
  }

  /** With one waiter, its event wakes it. */
  lemma OneWakes(k: KState, i: Slot, event: int)
    requires k.waiting == [i]
    ensures WakeUp(k, event) ==
      if k.table[i].event != event then k
      else k.(table := k.table[i := k.table[i].(state := Ready, event := NONE, arrival := k.arrivals)],
              ready := k.ready + [i], waiting := [], arrivals := k.arrivals + 1)
  {
    if k.table[i].event == event {
      assert FirstWaiter(k.table, k.waiting, event) == 0;
      assert Without([i], i) == [i][1..];
      var k1 := MakeReady(Put(k.(waiting := []), i, k.table[i].(event := NONE)), i);
      var q := k.table[i].(event := NONE);
      assert k.table[i := q][i := q.(state := Ready, arrival := k.arrivals)] ==
        k.table[i := q.(state := Ready, arrival := k.arrivals)];
      assert WakeUp(k1, event) == k1;
    }
  }

  lemma StopTaken()
    ensures StopHandler(D0(), 2) == D1({SIGSTOP})
  {
    hide Four, DefaultHandlers, StoppedStatus, WakeUp, ReportStop;
    var i, p, c, d := Idle(Ready), Waiter(), Sentenced(Ready, 3), Grandchild(Ready, 4);
    FourAt(i, p, c, d);
    FourSet(i, p, c, d, Halting());
    FourAt(i, p, Halting(), d);
    assert [2, 3][1..] == [3] && Without([2, 3], 2) == [3];
    assert LeaveActive(D0(), 2) == D0().(ready := [3]);
    StopReported();
    var p', c' := Notified(Waiter()), Halting().(jobSpec := 1);
    FourAt(i, p', c', d);
    OneWakes(D3(), 1, FG_PAUSED);
    assert GiveWay(D3(), 2, 1) == D3();
    FourSet(i, p', c', d, Frozen({SIGSTOP}));
    FourAt(i, p', Frozen({SIGSTOP}), d);
    var k := D3().(table := Four(i, p', Frozen({SIGSTOP}), d), suspended := [2]);
    OneWakes(k, 1, STATE_CHANGE);
    FourSet(i, p', Frozen({SIGSTOP}), d, Woken(Ready));
    assert D3().suspended + [2] == [2];
    assert Suspend(D3(), 2) == WakeUp(k, STATE_CHANGE);
  }

  lemma StopCleared()
    ensures CheckPending(D0(), 2) == D1({})
  {
    hide Four, DefaultHandlers, StoppedStatus, StopHandler, CheckFrom;
    DefaultOf();
    StopTaken();
    FourAt(Idle(Ready), Waiter(), Sentenced(Ready, 3), Grandchild(Ready, 4));
    OnePending(D0(), 2, 0, SIGSTOP);
    var i, p, d := Idle(Ready), Woken(Ready), Grandchild(Ready, 4);
    FourAt(i, p, Frozen({SIGSTOP}), d);
    assert Toggle({SIGSTOP}, SIGSTOP) == {};
    FourSet(i, p, Frozen({SIGSTOP}), d, Frozen({}));
    FourAt(i, p, Frozen({}), d);
    assert TakeSignal(D0(), 2, SIGSTOP) == D1({});
    NothingPending(D1({}), 2, SIGSTOP + 1);
  }

  /** The head of the ready queue leaves it when it is checked, and the next one runs. */
  lemma HeadLeaves(k: KState, k1: KState)
    requires Inv(k, {}) && !k.faulted && k.suspended == [] && k.ready != [] && k1 == CheckPending(k, k.ready[0])
    requires !k1.faulted && k1.ready != [] && k1.ready[0] != k.ready[0] && k1.table[k1.ready[0]].signals == {}
    ensures Schedule(k) == Dispatch(k1)
  {
    hide Inv, Dispatch, CheckFrom, Live, Steady, NoRevival;
    HeadProgress(k);
    SteadyInv(k, k1);
    NothingPending(k1, k1.ready[0], 0);
    assert CheckReady(k1) == k1;
    assert CheckReady(k) == CheckReady(k1);
  }

  lemma ParentStops()
    requires Good(W6())
    ensures Step(W6(), Timer) == W7()
  {
    hide Good, Inv, Four, DefaultHandlers, StoppedStatus, Schedule, Step, CheckFrom;
    TickBeforeStop();
    StopCleared();
    var i, p, c, d := Idle(Ready), Woken(Ready), Frozen({}), Grandchild(Ready, 4);
    FourAt(i, p, c, d);
    HeadLeaves(D0(), D1({}));
    FourSet(i, p, c, d, Grandchild(Running, 4));
  }

  // ----- exit without stopped jobs or children

  lemma {:induction false} NobodyAdopted(k: KState, parent: Slot, pid: int, n: nat)
    requires 1 <= n <= TABLE_SIZE && forall j: Slot :: j >= n ==> !(Occupied(k.table[j]) && k.table[j].ppid == pid)
    ensures SwitchParentFrom(k, parent, pid, 1, true, n) == k
    decreases TABLE_SIZE - n
  {
    if n < TABLE_SIZE {
      NobodyAdopted(k, parent, pid, n + 1);
    }
  }

  lemma {:induction false} NoJobEnds(k: KState, pid: int, jobs: seq<Slot>)
    requires forall j :: j in jobs ==> k.table[j].ppid != pid
    ensures EndJobs(k, pid, jobs) == k
  {
    hide EndJob;
    if jobs != [] {
      assert jobs[0] in jobs;
      NoJobEnds(k, pid, jobs[1..]);
    }
  }

  function Dead(p: Process, status: bv32): Process {
    p.(status := status, state := Killed, event := p.pid)
  }

  function Informed(p: Process, status: bv32): Process {
    p.(signals := p.signals + {SIGCHLD}, status := status)
  }

  /** exit of a childless holder of the foreground with a living parent that is no daemon. */
  lemma QuietExit(k: KState, i: Slot, status: bv32, parent: Slot)
    requires Alive(k.table[i]) && k.foreground == i && !k.table[i].daemon && i != 0
    requires parent == ParentOf(k, i) && parent != i && Alive(k.table[parent]) && !k.table[parent].daemon
    requires forall j: Slot :: 1 <= j && Occupied(k.table[j]) ==> k.table[j].ppid != k.table[i].pid
    requires forall j :: j in k.suspended ==> k.table[j].ppid != k.table[i].pid
    requires forall j :: j in k.waiting ==> j != i && k.table[j].event != FG_PAUSED
    ensures Exit(k, i, status) ==
      WakeUp(k.(table := k.table[i := Dead(k.table[i], status)][parent := Informed(k.table[parent], status)],
                foreground := parent, zombies := k.zombies + [i]), STATE_CHANGE)
  {
    hide WakeUp, EndJobs, SwitchParentFrom, FindPid;
    var pid := k.table[i].pid;
    var k1 := MarkDead(k, i, status);
    FindPidFrame(k.table, k1.table, k.table[i].ppid, 1);
    var k2 := Announce(k1, i, parent);
    assert k2 == k1.(table := k1.table[parent := Informed(k1.table[parent], status)]);
    NoJobEnds(k2, pid, k2.suspended);
    var init := GetProcess(k2, 1);
    if init != NIL {
      NobodyAdopted(k2, init, pid, 1);
    }
    assert SwitchParent(k2, pid, 1, true) == k2;
    NobodyWaits(k2.(foreground := parent), FG_PAUSED);
    assert GiveWay(k2, i, parent) == k2.(foreground := parent);
  }

  /** The zombie, and its stopped parent that now holds the foreground. */
  function Gone(): Process {
    Dead(Grandchild(Running, 4), ExitStatus(0))
  }

  function Holder(pending: set<Signal>): Process {
    Frozen(pending).(status := ExitStatus(0))
  }

  function E0(): KState {
    W7().(table := Four(Idle(Ready), Woken(Ready), Holder({SIGCHLD}), Gone()), foreground := 2, zombies := [3])
  }

  function W8(): KState {
    E0().(table := Four(Idle(Ready), Woken(Running).(signals := {}), Holder({SIGCHLD}), Gone()), ready := [],
          current := 1, schedules := 5)
  }

  lemma GrandchildExits()
    ensures Exit(W7(), 3, ExitStatus(0)) == E0()
  {
    hide Four, DefaultHandlers, StoppedStatus, ExitStatus, Exit;
    var i, p, c, d := Idle(Ready), Woken(Ready), Frozen({}), Grandchild(Running, 4);
    FourAt(i, p, c, d);
    assert ParentOf(W7(), 3) == 2;
    QuietExit(W7(), 3, ExitStatus(0), 2);
    FourSet(i, p, c, d, Gone());
    FourSet(i, p, c, Gone(), Holder({SIGCHLD}));
    assert c.signals + {SIGCHLD} == {SIGCHLD};
    NobodyWaits(E0(), STATE_CHANGE);
  }

  lemma InitHears()
    ensures CheckPending(E0(), 1) ==
      E0().(table := Four(Idle(Ready), Woken(Ready).(signals := {}), Holder({SIGCHLD}), Gone()))
  {
    hide Four, DefaultHandlers, StoppedStatus, ExitStatus, CheckFrom;
    DefaultOf();
    var i, p, c, d := Idle(Ready), Woken(Ready), Holder({SIGCHLD}), Gone();
    var p' := p.(signals := {});
    FourAt(i, p, c, d);
    OnePending(E0(), 1, 0, SIGCHLD);
    assert Toggle({SIGCHLD}, SIGCHLD) == {};
    FourSet(i, p, c, d, p');
    FourAt(i, p', c, d);
    var k := E0().(table := Four(i, p', c, d));
    assert TakeSignal(E0(), 1, SIGCHLD) == k;
    NothingPending(k, 1, SIGCHLD + 1);
  }

  /** One suspended job without anything to take, then a head that stays. */
  lemma HeadStays(k: KState, i: Slot, k1: KState)
    requires Inv(k, {}) && !k.faulted && k.suspended == [i] && CheckPending(k, i) == k
    requires k.ready != [] && k1 == CheckPending(k, k.ready[0])
    requires !k1.faulted && k1.ready != [] && k1.ready[0] == k.ready[0]
    ensures Schedule(k) == Dispatch(k1)
  {
    hide Inv, Dispatch, CheckFrom, Live, Steady, NoRevival;
    HeadProgress(k);
    assert CheckSuspended(k, [i]) == k;
  }

  lemma HandsBack()
    requires Good(W7())
    ensures Step(W7(), ExitCall(0)) == W8()
  {
    hide Good, Inv, Four, DefaultHandlers, StoppedStatus, ExitStatus, Schedule, CheckFrom, Exit;
    var i, p, c, d := Idle(Ready), Woken(Ready), Frozen({}), Grandchild(Running, 4);
    FourAt(i, p, c, d);
    ExitReady(W7(), ExitStatus(0));
    GrandchildExits();
    var p', h := p.(signals := {}), Holder({SIGCHLD});
    FourAt(i, p, h, Gone());
    StoppedTakes(E0(), 2, 0, TOTAL_SIGNALS);
    assert CheckPending(E0(), 2) == E0() by { NothingPending(E0(), 2, TOTAL_SIGNALS); }
    InitHears();
    FourAt(i, p', h, Gone());
    HeadStays(E0(), 2, E0().(table := Four(i, p', h, Gone())));
    FourSet(i, p', h, Gone(), p'.(state := Running));
  }

  // ----- the parent is continued

  /** A suspended job is checked, and the head of the ready queue, if any, has nothing to take. */
  lemma JobThenHead(k: KState, i: Slot, k1: KState)
    requires Inv(k, {}) && !k.faulted && k.suspended == [i] && k1 == CheckPending(k, i)
    requires !k1.faulted && (k1.ready == [] || k1.table[k1.ready[0]].signals == {})
    ensures Schedule(k) == Dispatch(k1)
  {
    hide Inv, Dispatch, CheckFrom, Live, Steady, NoRevival;
    SuspendedJobs(k);
    SteadyCheckSuspended(k, [i]);
    assert CheckSuspended(k, [i]) == k1;
    SteadyInv(k, k1);
    if k1.ready != [] {
      NothingPending(k1, k1.ready[0], 0);
    }
    assert CheckReady(k1) == k1;
  }

  function InitRuns(): Process {
    Woken(Running).(signals := {})
  }

  /** A signal of init for the stopped child. */
  function W9(sig: Signal): KState {
    W8().(table := Four(Idle(Ready), InitRuns(), Holder({SIGCHLD, sig}), Gone()))
  }

  lemma SignalSent(sig: Signal)
    requires Good(W8()) && (sig == SIGKILL || sig == SIGCONT)
    ensures Step(W8(), KillCall(2, sig)) == W9(sig)
  {
    hide Good, Four, DefaultHandlers, StoppedStatus, ExitStatus;
    var i, p, h, d := Idle(Ready), InitRuns(), Holder({SIGCHLD}), Gone();
    FourAt(i, p, h, d);
    assert GetProcess(W8(), 2) == 2;
    FourSet(i, p, h, d, Holder({SIGCHLD, sig}));
    assert Post({SIGCHLD}, sig) == {SIGCHLD, sig};
  }

  function InitSleeps(): Process {
    InitRuns().(state := Asleep, event := SLEEP_SYSCALL)
  }

  function F0(): KState {
    W9(SIGCONT).(table := Four(Idle(Ready), InitSleeps(), Holder({SIGCHLD, SIGCONT}), Gone()), waiting := [1])
  }

  lemma InitNaps()
    ensures FallAsleep(W9(SIGCONT), SLEEP_SYSCALL) == F0()
  {
    hide Four, DefaultHandlers, StoppedStatus, ExitStatus;
    var i, p, h, d := Idle(Ready), InitRuns(), Holder({SIGCHLD, SIGCONT}), Gone();
    FourAt(i, p, h, d);
    FourSet(i, p, h, d, p.(event := SLEEP_SYSCALL));
    FourAt(i, p.(event := SLEEP_SYSCALL), h, d);
    FourSet(i, p.(event := SLEEP_SYSCALL), h, d, InitSleeps());
  }

  /** The stopped holder of the foreground is put back on the ready queue and paused at once. */
  lemma PausesItself()
    ensures var k' := ContinueHandler(F0(), 2);
      && !k'.faulted && k'.ready == [] && k'.foreground == 2
      && k'.table[2].state == Asleep && k'.table[2].event == FG_PAUSED
      && k'.table[2].signals == {SIGCHLD, SIGCONT} && k'.table[2].handlers == DefaultHandlers()
  {
    hide Four, DefaultHandlers, StoppedStatus, ExitStatus, ContinuedStatus, FinishContinue;
    FourAt(Idle(Ready), InitSleeps(), Holder({SIGCHLD, SIGCONT}), Gone());
    assert Without([2], 2) == [2][1..] == [];
    var k1 := Resume(F0(), 2);
    assert k1.ready == [2] && k1.foreground == 2;
    var k2 := PauseForeground(k1).(foreground := 2);
    assert k2.ready == [];
    FinishExact(k2, 2);
    FinishKeeps(k2, 2);
  }

  lemma FinishKeeps(k: KState, i: Slot)
    requires ParentOf(k, i) != i
    ensures FinishContinue(k, i).table[i].signals == k.table[i].signals
    ensures FinishContinue(k, i).table[i].handlers == k.table[i].handlers
  {
    hide FindPid, ContinuedStatus;
    FindPidFrame(k.table, k.table[i := k.table[i].(status := ContinuedStatus(k.table[i].status))], k.table[i].ppid, 1);
  }

  lemma ContinueTaken()
    ensures var k' := CheckPending(F0(), 2);
      && !k'.faulted && k'.ready == [] && k'.foreground == 2
      && k'.table[2].state == Asleep && k'.table[2].event == FG_PAUSED
  {
    hide Four, DefaultHandlers, StoppedStatus, ExitStatus, ContinueHandler, CheckFrom;
    FourAt(Idle(Ready), InitSleeps(), Holder({SIGCHLD, SIGCONT}), Gone());
    DefaultOf();
    PausesItself();
    var k' := TakeSignal(F0(), 2, SIGCONT);
    assert Toggle({SIGCHLD, SIGCONT}, SIGCONT) == {SIGCHLD};
    assert k'.table[2].signals == {SIGCHLD} && k'.ready == [];
    StoppedTakes(F0(), 2, 0, SIGCONT);
    TakesNext(F0(), 2, SIGCONT);
    NothingPending(k', 2, SIGCONT + 1);
  }

  lemma Stranded()
    requires Good(W9(SIGCONT))
    ensures var k' := Step(W9(SIGCONT), Sleep(SLEEP_SYSCALL));
      && !k'.faulted && k'.foreground == 2 && k'.table[2].state == Asleep && k'.table[2].event == FG_PAUSED
      && k'.ready == []
  {
    hide Good, Inv, Four, DefaultHandlers, StoppedStatus, ExitStatus, Schedule, CheckFrom, FallAsleep;
    FourAt(Idle(Ready), InitRuns(), Holder({SIGCHLD, SIGCONT}), Gone());
    FallAsleepReady(W9(SIGCONT), SLEEP_SYSCALL);
    InitNaps();
    ContinueTaken();
    JobThenHead(F0(), 2, CheckPending(F0(), 2));
  }

  lemma Handover(rest: seq<Action>)
    ensures Good(Boot()) && Good(W8())
    ensures Run(Boot(), [Timer, Fork(true), Wait(-1, false, false, false), Fork(true), KillCall(2, SIGSTOP), Timer,
                         Timer, ExitCall(0)] + rest) == Run(W8(), rest)
  {
    hide Good, W4, W5, W6, W7, W8, Boot, Step;
    var a, b, c := KillCall(2, SIGSTOP), Timer, ExitCall(0);
    Beginning([a, b, b, c] + rest);
    StopsItself();
    Leads(W4(), a, W5(), [b, b, c] + rest);
    GrandchildRuns();
    Leads(W5(), b, W6(), [b, c] + rest);
    ParentStops();
    Leads(W6(), b, W7(), [c] + rest);
    HandsBack();
    Leads(W7(), c, W8(), rest);
    assert [a, b, b, c] + rest == [a] + ([b, b, c] + rest);
    assert [b, b, c] + rest == [b] + ([b, c] + rest);
    assert [b, c] + rest == [b] + ([c] + rest);
    assert [Timer, Fork(true), Wait(-1, false, false, false), Fork(true), a, b, b, c] + rest
      == [Timer, Fork(true), Wait(-1, false, false, false), Fork(true)] + ([a, b, b, c] + rest);
  }

  /** A child of init stops itself; its own child, in the foreground, exits and hands the foreground
      back to it; init continues it. It then sleeps until the foreground is given back, which it
      holds itself, and nothing is ready to run. */
  lemma ContinueStrands()
    ensures Good(Boot())
    ensures var k := Run(Boot(), [Timer, Fork(true), Wait(-1, false, false, false), Fork(true), KillCall(2, SIGSTOP),
                                  Timer, Timer, ExitCall(0), KillCall(2, SIGCONT), Sleep(SLEEP_SYSCALL)]);
      && !k.faulted && k.foreground == 2 && k.table[2].state == Asleep && k.table[2].event == FG_PAUSED
      && k.ready == []
  {
    hide Good, W8, W9, Boot, Step;
    var a, b := KillCall(2, SIGCONT), Sleep(SLEEP_SYSCALL);
    Handover([a, b]);
    SignalSent(SIGCONT);
    Leads(W8(), a, W9(SIGCONT), [b]);
    Stranded();
    Leads(W9(SIGCONT), b, Step(W9(SIGCONT), b), []);
    assert [a, b] == [a] + [b] && [b] == [b] + [];
    assert [Timer, Fork(true), Wait(-1, false, false, false), Fork(true), KillCall(2, SIGSTOP), Timer, Timer,
            ExitCall(0), a, b]
      == [Timer, Fork(true), Wait(-1, false, false, false), Fork(true), KillCall(2, SIGSTOP), Timer, Timer,
          ExitCall(0)] + [a, b];
  }

  // ----- the parent is killed

  /** SIGKILL for a stopped process without living children, when nobody waits for a child. */
  lemma QuietKill(k: KState, i: Slot)
    requires Inv(k, {}) && i != 0 && k.table[i].state == Stopped && k.table[i].pid > 1
    requires forall j :: j in k.waiting ==> k.table[j].event != STATE_CHANGE
    requires forall j: Slot :: j >= 2 ==> !Hit(k.table[j], k.table[i].pid, false)
    ensures var k' := KillHandler(k, i);
      && k'.ready == k.ready && k'.foreground == k.foreground && k'.faulted == k.faulted && k'.table[i].state == Killed
      && forall j: Slot :: j != 0 && j != i && j != ParentOf(k, i) ==>
           k'.table[j].signals == k.table[j].signals && k'.table[j].daemon == k.table[j].daemon
  {
    hide Inv, Withdraw, Notify, Slay, Bury, FindPid, SignalBits;
    var pid, status, parent := k.table[i].pid, 0x100 | SignalBits(SIGKILL), ParentOf(k, i);
    KilledParent(k, i, status);
    var k3 := Withdraw(Notify(Put(k, i, k.table[i].(status := status)), parent, status), i, parent);
    QuietReport(k, i, parent, status);
    assert k3.table[i].pid == pid && k3.table[i].state == Stopped;
    WaitsOff(k, i);
    QuietSlay(k3, i, pid);
    assert KillHandler(k, i) == Bury(Slay(k3, i, pid), i);
  }

  predicate Untouched(p: Process, q: Process) {
    q.pid == p.pid && q.ppid == p.ppid && q.state == p.state && q.event == p.event
  }

  lemma QuietReport(k: KState, i: Slot, parent: Link, status: bv32)
    requires k.table[i].state == Stopped
    ensures var k' := Withdraw(Notify(Put(k, i, k.table[i].(status := status)), parent, status), i, parent);
      && k' == k.(table := k'.table, suspended := Without(k.suspended, i))
      && (forall j: Slot :: Untouched(k.table[j], k'.table[j]))
      && (forall j: Slot :: j != i && j != parent ==> k'.table[j] == k.table[j])
  {
    hide Without;
  }

  lemma QuietSlay(k: KState, i: Slot, pid: int)
    requires pid > 1 && i != 0 && k.table[i].pid == pid && i !in k.waiting && 0 !in k.waiting
    requires forall j :: j in k.waiting ==> k.table[j].event != STATE_CHANGE
    requires forall j: Slot :: j >= 2 ==> !Hit(k.table[j], pid, false)
    ensures var k' := Bury(Slay(k, i, pid), i);
      && k'.ready == k.ready && k'.foreground == k.foreground && k'.faulted == k.faulted && k'.table[i].state == Killed
      && forall j: Slot :: j != 0 && j != i ==>
           k'.table[j].signals == k.table[j].signals && k'.table[j].daemon == k.table[j].daemon
  {
    hide SwitchParent, KillGroupFrom, WakeUp;
    var k4 := SwitchParent(k, pid, 1, false);
    QuietSwitch(k, pid);
    NobodyHit(k4, pid, SIGKILL, 2);
    var k5 := Slay(k, i, pid);
    NobodyWaits(k5.(zombies := k5.zombies + [i]), STATE_CHANGE);
  }

  lemma WaitsOff(k: KState, i: Slot)
    requires Inv(k, {}) && i != 0 && k.table[i].state == Stopped
    ensures i !in k.waiting && 0 !in k.waiting
  {
    hide NoDup, Data, InOrder;
  }

  /** Handing children over changes parents and nothing that matters here; no child is created. */
  lemma QuietSwitch(k: KState, pid: int)
    requires pid > 1
    ensures var k' := SwitchParent(k, pid, 1, false);
      && k' == k.(table := k'.table)
      && forall j: Slot :: j != 0 ==> var p, q := k.table[j], k'.table[j];
           && q.pid == p.pid && q.state == p.state && q.event == p.event && q.signals == p.signals
           && q.daemon == p.daemon && (q.ppid == p.ppid || q.ppid == 1)
  {
    hide SwitchParentFrom, GetProcess;
    var init := GetProcess(k, 1);
    var k' := SwitchParent(k, pid, 1, false);
    if init != NIL && k.table[init].state != Killed {
      SwitchParentExact(k, init, pid, 1, false, 1);
      forall j: Slot | j != 0
        ensures var p, q := k.table[j], k'.table[j];
          && q.pid == p.pid && q.state == p.state && q.event == p.event && q.signals == p.signals
          && q.daemon == p.daemon && (q.ppid == p.ppid || q.ppid == 1)
      {
        assert Adopted(k.table[j], k'.table[j], pid, 1, false);
      }
    }
  }

  function Second(s: State): Process {
    Child(4, s, 6)
  }

  function G1(): KState {
    W9(SIGKILL).(table := Four(Idle(Ready), InitRuns(), Holder({SIGCHLD, SIGKILL}), Gone())[4 := Second(Ready)],
                 ready := [4], nextPid := 5, arrivals := 7)
  }

  function G0(): KState {
    G1().(table := Four(Idle(Ready), InitSleeps(), Holder({SIGCHLD, SIGKILL}), Gone())[4 := Second(Ready)],
          waiting := [1])
  }

  lemma InitForks()
    requires Good(W9(SIGKILL))
    ensures Step(W9(SIGKILL), Fork(true)) == G1()
  {
    hide Good, Four, DefaultHandlers, StoppedStatus, ExitStatus, FindUnused, ForkStep;
    FourAt(Idle(Ready), InitRuns(), Holder({SIGCHLD, SIGKILL}), Gone());
    FreeSlot(W9(SIGKILL).table, 4);
    ForkExact(W9(SIGKILL), 4);
  }

  lemma InitRests()
    ensures FallAsleep(G1(), SLEEP_SYSCALL) == G0()
  {
    hide Four, DefaultHandlers, StoppedStatus, ExitStatus;
    var i, p, h, d := Idle(Ready), InitRuns(), Holder({SIGCHLD, SIGKILL}), Gone();
    var p' := p.(event := SLEEP_SYSCALL);
    FourAt(i, p, h, d);
    FourSet(i, p, h, d, p');
    FourAt(i, p', h, d);
    FourSet(i, p', h, d, InitSleeps());
    var t := Four(i, p, h, d);
    assert t[4 := Second(Ready)][1 := p'] == t[1 := p'][4 := Second(Ready)];
    var t' := t[1 := p'];
    assert t'[4 := Second(Ready)][1 := InitSleeps()] == t'[1 := InitSleeps()][4 := Second(Ready)];
  }

  lemma KillTaken()
    requires Inv(G0(), {})
    ensures var k' := CheckPending(G0(), 2);
      && !k'.faulted && k'.ready == [4] && k'.foreground == 2 && k'.table[2].state == Killed
      && k'.table[4].signals == {} && !k'.table[4].daemon
  {
    hide Inv, Four, DefaultHandlers, StoppedStatus, ExitStatus, KillHandler, CheckFrom;
    FourAt(Idle(Ready), InitSleeps(), Holder({SIGCHLD, SIGKILL}), Gone());
    DefaultOf();
    assert G0().table[2] == Holder({SIGCHLD, SIGKILL}) && G0().table[1] == InitSleeps();
    assert ParentOf(G0(), 2) == 1;
    forall j: Slot | j >= 2
      ensures !Hit(G0().table[j], 2, false)
    {
      assert j > 4 ==> G0().table[j] == Blank();
    }
    QuietKill(G0(), 2);
    StoppedTakes(G0(), 2, 0, SIGKILL);
    TakesNext(G0(), 2, SIGKILL);
    var k' := TakeSignal(G0(), 2, SIGKILL);
    KilledOff(KillHandler(G0(), 2), 2);
    DeadStays(k', 2, SIGKILL + 1);
  }

  lemma KilledOff(k: KState, i: Slot)
    requires k.ready == [4] && i != 4
    ensures i !in k.ready
  {
  }

  lemma Bereft()
    requires Good(G1())
    ensures var k' := Step(G1(), Sleep(SLEEP_SYSCALL));
      && !k'.faulted && k'.current == 4 && k'.table[4].state == Running && !k'.table[4].daemon
      && k'.foreground == 2 && k'.table[2].state == Killed
  {
    hide Good, Inv, Four, DefaultHandlers, StoppedStatus, ExitStatus, Schedule, CheckFrom, FallAsleep;
    FourAt(Idle(Ready), InitRuns(), Holder({SIGCHLD, SIGKILL}), Gone());
    FallAsleepReady(G1(), SLEEP_SYSCALL);
    InitRests();
    KillTaken();
    JobThenHead(G0(), 2, CheckPending(G0(), 2));
  }

  /** The same up to the stopped holder of the foreground; init kills it, forks and sleeps. The new
      child runs, is no daemon, and the foreground pointer leads to the dead process. */
  lemma KillLeavesDeadHolder()
    ensures Good(Boot())
    ensures var k := Run(Boot(), [Timer, Fork(true), Wait(-1, false, false, false), Fork(true), KillCall(2, SIGSTOP),
                                  Timer, Timer, ExitCall(0), KillCall(2, SIGKILL), Fork(true), Sleep(SLEEP_SYSCALL)]);
      !k.faulted && k.table[k.current].state == Running && Stale(k) && Lonely(k)
  {
    hide Good, W8, W9, G1, Boot, Step;
    var a, b, c := KillCall(2, SIGKILL), Fork(true), Sleep(SLEEP_SYSCALL);
    Handover([a, b, c]);
    SignalSent(SIGKILL);
    Leads(W8(), a, W9(SIGKILL), [b, c]);
    InitForks();
    Leads(W9(SIGKILL), b, G1(), [c]);
    Bereft();
    Leads(G1(), c, Step(G1(), c), []);
    assert [a, b, c] == [a] + [b, c] && [b, c] == [b] + [c] && [c] == [c] + [];
    assert [Timer, Fork(true), Wait(-1, false, false, false), Fork(true), KillCall(2, SIGSTOP), Timer, Timer,
            ExitCall(0), a, b, c]
      == [Timer, Fork(true), Wait(-1, false, false, false), Fork(true), KillCall(2, SIGSTOP), Timer, Timer,
          ExitCall(0)] + [a, b, c];
  }

  // ----- a signal costs a wake-up

  function Waits(s: State, arrival: nat, pending: set<Signal>): Process {
    Child(2, s, arrival).(event := STATE_CHANGE, wpid := -1, signals := pending)
  }

  function V4(): KState {
    W4().(table := Four(Idle(Ready), Waiter(), Waits(Asleep, 1, {}), Grandchild(Ready, 2)), waiting := [1, 2])
  }

  function V5(): KState {
    V4().(table := Four(Idle(Ready), Waiter(), Waits(Asleep, 1, {}), Grandchild(Running, 2)), ready := [], current := 3,
          foreground := 3, schedules := 3)
  }

  lemma ChildLooks()
    ensures var k := SetWpid(W4(), -1);
      && WaitLook(k, -1) == k && WaitEnding(k, -1, false, false) == Blocks
      && FallAsleep(k, STATE_CHANGE) == V4()
  {
    hide Four, DefaultHandlers;
    var i, p, c, d := Idle(Ready), Waiter(), Child(2, Running, 1), Grandchild(Ready, 2);
    var c1 := c.(wpid := -1);
    FourAt(i, p, c, d);
    FourSet(i, p, c, d, c1);
    FourAt(i, p, c1, d);
    FourSet(i, p, c1, d, c1.(event := STATE_CHANGE));
    FourAt(i, p, c1.(event := STATE_CHANGE), d);
    FourSet(i, p, c1.(event := STATE_CHANGE), d, Waits(Asleep, 1, {}));
    var k := SetWpid(W4(), -1);
    assert k.table[3].ppid == k.table[k.current].pid;
    assert HasChild(k, -1);
  }

  lemma ChildCalls()
    requires Good(W4())
    ensures Inv(V4(), {}) && Step(W4(), Wait(-1, false, false, false)) == Schedule(V4())
  {
    hide Good, Inv, Four, DefaultHandlers, WaitLook, WaitEnding, FallAsleep, Schedule;
    var k := SetWpid(W4(), -1);
    ChildLooks();
    GoodSetWpid(W4(), -1);
    FallAsleepReady(k, STATE_CHANGE);
  }

  lemma ChildBlocks()
    requires Good(W4())
    ensures Step(W4(), Wait(-1, false, false, false)) == V5()
  {
    hide Good, Inv, Four, DefaultHandlers, Schedule, Step;
    ChildCalls();
    var i, p, c, d := Idle(Ready), Waiter(), Waits(Asleep, 1, {}), Grandchild(Ready, 2);
    FourAt(i, p, c, d);
    QuietSchedule(V4());
    FourSet(i, p, c, d, Grandchild(Running, 2));
  }

  function V6(): KState {
    V5().(table := Four(Idle(Ready), Waiter(), Waits(Ready, 3, {10}), Grandchild(Running, 2)), ready := [2],
          waiting := [1], arrivals := 4)
  }

  lemma ChildPulled()
    requires Good(V5())
    ensures Step(V5(), KillCall(2, 10)) == V6()
  {
    hide Good, Four, DefaultHandlers;
    var i, p, c, d := Idle(Ready), Waiter(), Waits(Asleep, 1, {}), Grandchild(Running, 2);
    var c1 := Waits(Asleep, 1, {10});
    FourAt(i, p, c, d);
    assert GetProcess(V5(), 2) == 2;
    assert Post({}, 10) == {10};
    FourSet(i, p, c, d, c1);
    FourAt(i, p, c1, d);
    FourSet(i, p, c1, d, Waits(Ready, 3, {10}));
    assert Without([1, 2], 2) == [1] by {
      assert [1, 2][1..] == [2] && Without([2], 2) == [2][1..] == [];
    }
  }

  /** The state in which the exit of the grandchild calls the scheduler. */
  function H0(): KState {
    V6().(table := Four(Idle(Ready), InitBack(), ChildTold(), Orphan()), ready := [2, 1], waiting := [],
          foreground := 2, zombies := [3], arrivals := 5)
  }

  function InitBack(): Process {
    First(Ready, 4).(wpid := -1)
  }

  function ChildTold(): Process {
    Waits(Ready, 3, {10, SIGCHLD}).(status := ExitStatus(0))
  }

  function Orphan(): Process {
    Dead(Grandchild(Running, 2), ExitStatus(0))
  }

  lemma ExitCalls()
    ensures Exit(V6(), 3, ExitStatus(0)) == H0()
  {
    hide Four, DefaultHandlers, ExitStatus, Exit, WakeUp;
    var i, p, c, d := Idle(Ready), Waiter(), Waits(Ready, 3, {10}), Grandchild(Running, 2);
    FourAt(i, p, c, d);
    assert ParentOf(V6(), 3) == 2;
    QuietExit(V6(), 3, ExitStatus(0), 2);
    FourSet(i, p, c, d, Orphan());
    FourSet(i, p, c, Orphan(), ChildTold());
    assert c.signals + {SIGCHLD} == {10, SIGCHLD};
    FourAt(i, p, ChildTold(), Orphan());
    var k := V6().(table := Four(i, p, ChildTold(), Orphan()), foreground := 2, zombies := [3]);
    assert V6().zombies + [3] == [3];
    OneWakes(k, 1, STATE_CHANGE);
    FourSet(i, p, ChildTold(), Orphan(), InitBack());
  }

  lemma ChildDozes()
    requires Inv(H0(), {})
    ensures var k' := CheckPending(H0(), 2);
      && !k'.faulted && k'.ready == [1] && k'.waiting == [2] && k'.zombies == [3]
      && k'.table[2].state == Asleep && k'.table[2].event == STATE_CHANGE && k'.table[2].pid == 2
      && k'.table[1].signals == {} && k'.table[3] == Orphan()
  {
    hide Inv, Four, DefaultHandlers, ExitStatus, CheckFrom;
    FourAt(Idle(Ready), InitBack(), ChildTold(), Orphan());
    DefaultOf();
    DropsTen();
    var p := H0().table[2];
    assert p == ChildTold();
    assert 10 in p.signals && !p.handlers[10].UserHandler?;
    SleepsAgainIff(H0(), 2);
    assert [2, 1][1..] == [1] && Without([2, 1], 2) == [1];
  }

  lemma DropsTen()
    ensures DefaultHandlers()[10] == NoHandler
  {
  }

  lemma Overslept()
    requires Good(V6())
    ensures var k' := Step(V6(), ExitCall(0));
      && !k'.faulted && k'.table[2].state == Asleep && k'.table[2].event == STATE_CHANGE && k'.table[2].pid == 2
      && k'.zombies == [3] && k'.table[3].state == Killed && k'.table[3].ppid == 2
  {
    hide Good, Inv, Four, DefaultHandlers, ExitStatus, Schedule, CheckFrom, Exit;
    FourAt(Idle(Ready), Waiter(), Waits(Ready, 3, {10}), Grandchild(Running, 2));
    ExitReady(V6(), ExitStatus(0));
    ExitCalls();
    ChildDozes();
    HeadLeaves(H0(), CheckPending(H0(), 2));
  }

  /** A process waits for its child; the child sends it a signal that is dropped, and exits. The
      parent sleeps on, waiting for a change of state, with the dead child among the zombies. */
  lemma SignalCostsWakeUp()
    ensures Good(Boot())
    ensures var k := Run(Boot(), [Timer, Fork(true), Wait(-1, false, false, false), Fork(true),
                                  Wait(-1, false, false, false), KillCall(2, 10), ExitCall(0)]);
      && !k.faulted && k.table[2].state == Asleep && k.table[2].event == STATE_CHANGE && k.table[2].pid == 2
      && k.zombies == [3] && k.table[3].state == Killed && k.table[3].ppid == 2
  {
    hide Good, W4, V5, V6, Boot, Step;
    var a, b, c := Wait(-1, false, false, false), KillCall(2, 10), ExitCall(0);
    Beginning([a, b, c]);
    ChildBlocks();
    Leads(W4(), a, V5(), [b, c]);
    ChildPulled();
    Leads(V5(), b, V6(), [c]);
    Overslept();
    Leads(V6(), c, Step(V6(), c), []);
    assert [a, b, c] == [a] + [b, c] && [b, c] == [b] + [c] && [c] == [c] + [];
    assert [Timer, Fork(true), a, Fork(true), a, b, c] == [Timer, Fork(true), a, Fork(true)] + [a, b, c];
  }
}
