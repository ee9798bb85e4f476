/** Short runs from boot that reach the two branches that break the queues, and a state with nobody
    in the foreground. */
module WitnessRuns {
  import opened Sequences
  import opened ProcessModel
  import opened ProcessInvariant
  import opened PendingProofs
  import opened Scheduler
  import opened KernelSteps
  import opened ProcessCalls
  import opened KernelRuns
  import opened StopEffects
  import opened KillEffects

  // ----- tables with four slots in use

  function Four(p0: Process, p1: Process, p2: Process, p3: Process): Table {
    BlankTable()[0 := p0][1 := p1][2 := p2][3 := p3]
  }

  lemma FourAt(p0: Process, p1: Process, p2: Process, p3: Process)
    ensures var t := Four(p0, p1, p2, p3);
      t[0] == p0 && t[1] == p1 && t[2] == p2 && t[3] == p3 && forall i: Slot :: i >= 4 ==> t[i] == Blank()
  {
  }

  lemma FourSet(p0: Process, p1: Process, p2: Process, p3: Process, q: Process)
    ensures Four(p0, p1, p2, p3)[0 := q] == Four(q, p1, p2, p3)
    ensures Four(p0, p1, p2, p3)[1 := q] == Four(p0, q, p2, p3)
    ensures Four(p0, p1, p2, p3)[2 := q] == Four(p0, p1, q, p3)
    ensures Four(p0, p1, p2, p3)[3 := q] == Four(p0, p1, p2, q)
  {
  }

  /** The idle process, init, and a child of init. */
  function Idle(s: State): Process {
    Blank().(state := s, daemon := true)
  }

  function First(s: State, arrival: nat): Process {
    InitProcess().(state := s, arrival := arrival)
  }

  function Child(pid: int, s: State, arrival: nat): Process {
    Blank().(state := s, event := NONE, pid := pid, ppid := 1, handlers := DefaultHandlers(), arrival := arrival)
  }

  function Running4(t: Table, ready: seq<Slot>, waiting: seq<Slot>, current: Slot, foreground: Link,
                    nextPid: int, arrivals: nat, schedules: nat): KState {
    KState(t, ready, waiting, [], [], current, foreground, nextPid, false, false, arrivals, schedules, [])
  }

  // ----- quiet steps

  lemma {:induction false} NothingPending(k: KState, i: Slot, n: nat)
    requires n <= TOTAL_SIGNALS && forall s :: s in k.table[i].signals ==> s < n
    ensures CheckFrom(k, i, n) == k
    decreases TOTAL_SIGNALS - n
  {
    if n < TOTAL_SIGNALS {
      NothingPending(k, i, n + 1);
    }
  }

  /** One pending signal is taken; those below it are not there. */
  lemma {:induction false} OnePending(k: KState, i: Slot, n: nat, s: Signal)
    requires n <= s && k.table[i].signals == {s} && !k.faulted && Alive(k.table[i])
    requires k.table[i].state == Stopped ==> s == SIGKILL || s == SIGCONT
    ensures CheckFrom(k, i, n) == CheckFrom(TakeSignal(k, i, s), i, s + 1)
    decreases s - n
  {
    hide TakeSignal;
    if n < s {
      OnePending(k, i, n + 1, s);
    }
  }

  /** With no suspended job and no signal pending for the head of the queue, the head runs. */
  lemma QuietSchedule(k: KState)
    requires Inv(k, {}) && !k.faulted && k.suspended == [] && k.ready != [] && k.table[k.ready[0]].signals == {}
    ensures Schedule(k) == Dispatch(k)
  {
    hide Inv, Dispatch, CheckFrom;
    NothingPending(k, k.ready[0], 0);
  }

  /** A timer tick with nobody asleep. */
  lemma QuietTimer(k: KState)
    requires Good(k) && !k.faulted && k.waiting == [] && k.suspended == [] && k.ready != []
    requires k.table[k.ready[0]].signals == {} && k.ready[0] != k.current
    ensures TimerStep(k) == Dispatch(Preempt(k))
  {
    hide Good, Inv, Dispatch;
    PreemptReady(k);
    QuietSchedule(Preempt(k));
  }

  // ----- bringing a running process to the foreground

  function A1(): KState {
    Running4(Four(Idle(Ready), First(Running, 0), Blank(), Blank()), [], [], 1, NIL, 2, 1, 1)
  }

  function A2(): KState {
    Running4(Four(Idle(Ready), First(Running, 0), Child(2, Ready, 1), Blank()), [2], [], 1, NIL, 3, 2, 1)
  }

  lemma BootFour()
    ensures Boot() == Running4(Four(Idle(Running), First(Ready, 0), Blank(), Blank()), [1], [], 0, NIL, 2, 1, 0)
  {
    assert Boot().table == Four(Idle(Running), First(Ready, 0), Blank(), Blank());
  }

  lemma BootTick()
    ensures Good(Boot()) && Step(Boot(), Timer) == A1()
  {
    hide Good, Four, Boot;
    GoodBoot();
    BootFour();
    FourAt(Idle(Running), First(Ready, 0), Blank(), Blank());
    QuietTimer(Boot());
    FourSet(Idle(Running), First(Ready, 0), Blank(), Blank(), Idle(Ready));
    FourSet(Idle(Ready), First(Ready, 0), Blank(), Blank(), First(Running, 0));
    FourAt(Idle(Ready), First(Ready, 0), Blank(), Blank());
  }

  /** What fork makes of a free slot. */
  lemma ForkExact(k: KState, i: Slot)
    requires FindUnused(k.table, 1) == i && i != k.current && k.foreground != i
    requires k.foreground != NIL && k.foreground != k.current ==>
      k.table[k.foreground].pid != k.table[k.current].pid
    ensures ForkStep(k, true) ==
      k.(table := k.table[i := Blank().(state := Ready, event := NONE, pid := k.nextPid, ppid := k.table[k.current].pid,
                                       handlers := DefaultHandlers(), arrival := k.arrivals)],
         ready := k.ready + [i], nextPid := k.nextPid + 1, arrivals := k.arrivals + 1,
         foreground := if k.foreground == k.current then NIL else k.foreground)
  {
    hide DefaultHandlers, FindUnused;
    ConceiveNewborn(k, i);
    hide Conceive;
    var p := Newborn(k);
    var k1 := Put(k, i, p).(nextPid := k.nextPid + 1);
    assert Conceive(k, i) == k1.(foreground := if k.foreground == k.current then NIL else k.foreground);
    var q := p.(signals := {}, handlers := DefaultHandlers());
    assert k1.table[i := q] == k.table[i := q];
    var r := q.(state := Ready, arrival := k.arrivals);
    assert k.table[i := q][i := r] == k.table[i := r];
  }

  lemma FreeSlot(t: Table, i: Slot)
    requires 1 <= i && t[i].state == Unused && forall j :: 1 <= j < i ==> t[j].state != Unused
    ensures FindUnused(t, 1) == i
  {
  }

  /** Init forks its first child. */
  lemma FirstFork()
    requires Good(A1())
    ensures Step(A1(), Fork(true)) == A2()
  {
    hide Good, Four, DefaultHandlers, FindUnused, ForkStep;
    FourAt(Idle(Ready), First(Running, 0), Blank(), Blank());
    FreeSlot(A1().table, 2);
    ForkExact(A1(), 2);
    FourSet(Idle(Ready), First(Running, 0), Blank(), Blank(), Child(2, Ready, 1));
  }

  function A3(): KState {
    Running4(Four(Idle(Ready), First(Ready, 2), Child(2, Running, 1), Blank()), [1], [], 2, 2, 3, 3, 2)
  }

  /** The child runs and holds the foreground. */
  lemma ChildRuns()
    requires Good(A2())
    ensures Step(A2(), Timer) == A3()
  {
    hide Good, Four, DefaultHandlers;
    var i, p, c := Idle(Ready), First(Running, 0), Child(2, Ready, 1);
    FourAt(i, p, c, Blank());
    QuietTimer(A2());
    FourSet(i, p, c, Blank(), First(Ready, 2));
    FourSet(i, First(Ready, 2), c, Blank(), Child(2, Running, 1));
    FourAt(i, First(Ready, 2), c, Blank());
    assert [2] + [1] == [2, 1] && [2, 1][1..] == [1];
  }

  /** A background job of init: the child has job number 1. */
  function A4(): KState {
    Running4(Four(Idle(Ready), First(Ready, 2).(jobs := 1), Child(2, Running, 1).(daemon := true, jobSpec := 1),
      Blank()),
             [1], [], 2, NIL, 3, 3, 2)
  }

  lemma ChildExecs()
    requires Good(A3())
    ensures Step(A3(), Exec(true, true, true)) == A4()
  {
    hide Good, Four, DefaultHandlers;
    var i, p, c := Idle(Ready), First(Ready, 2), Child(2, Running, 1);
    var p', c' := p.(jobs := 1), c.(jobSpec := 1);
    FourAt(i, p, c, Blank());
    assert ParentOf(A3(), 2) == 1;
    FourSet(i, p, c, Blank(), p');
    FourAt(i, p', c, Blank());
    FourSet(i, p', c, Blank(), c');
    FourAt(i, p', c', Blank());
    FourSet(i, p', c', Blank(), c'.(daemon := true));
    FourAt(i, p', c'.(daemon := true), Blank());
  }

  /** A background job that asks for its own number to be brought to the foreground: it runs at
      that moment, and move_to_fore puts it on the ready queue. */
  lemma ForegroundBreaks()
    ensures Good(Boot())
    ensures Run(Boot(), [Timer, Fork(true), Timer, Exec(true, true, true), Foreground(1)]).faulted
  {
    hide Good, A1, A2, A3, A4, Boot, Step;
    BootTick();
    Leads(Boot(), Timer, A1(), [Fork(true), Timer, Exec(true, true, true), Foreground(1)]);
    FirstFork();
    Leads(A1(), Fork(true), A2(), [Timer, Exec(true, true, true), Foreground(1)]);
    ChildRuns();
    Leads(A2(), Timer, A3(), [Exec(true, true, true), Foreground(1)]);
    ChildExecs();
    Leads(A3(), Exec(true, true, true), A4(), [Foreground(1)]);
    RunningJob();
    Leads(A4(), Foreground(1), Step(A4(), Foreground(1)), []);
  }

  lemma RunningJob()
    requires Good(A4())
    ensures Step(A4(), Foreground(1)).faulted
  {
    hide Good, Four, DefaultHandlers;
    var i, p, c := Idle(Ready), First(Ready, 2).(jobs := 1), Child(2, Running, 1).(daemon := true, jobSpec := 1);
    FourAt(i, p, c, Blank());
    assert FindJob(A4(), 1, 1) == 2;
  }

  // ----- nobody in the foreground

  /** fork takes the foreground from its caller, who goes on running without it. */
  lemma ForkLeavesNobody(k: KState, copied: bool)
    requires k.foreground == k.current && FindUnused(k.table, 1) != NIL && FindUnused(k.table, 1) != k.current
    ensures var k' := ForkStep(k, copied);
      && k'.foreground == NIL && k'.current == k.current
      && k'.table[k.current] == k.table[k.current]
  {
    hide DefaultHandlers, FindUnused, Conceive;
    var i := FindUnused(k.table, 1);
    ConceiveNewborn(k, i);
  }

  /** A child that holds the foreground forks too: it is no daemon, it runs, and the pointer to
      the foreground process, which a read of the keyboard would follow, is NULL. */
  lemma NobodyInForeground()
    ensures Good(Boot())
    ensures var k := Run(Boot(), [Timer, Fork(true), Timer, Fork(true)]);
      !k.faulted && k.table[k.current].state == Running && !k.table[k.current].daemon && k.foreground == NIL
  {
    hide Good, A1, A2, Boot, Step, Four, DefaultHandlers, FindUnused, ForkStep;
    BootTick();
    Leads(Boot(), Timer, A1(), [Fork(true), Timer, Fork(true)]);
    FirstFork();
    Leads(A1(), Fork(true), A2(), [Timer, Fork(true)]);
    ChildRuns();
    Leads(A2(), Timer, A3(), [Fork(true)]);
    var i, p, c := Idle(Ready), First(Ready, 2), Child(2, Running, 1);
    FourAt(i, p, c, Blank());
    FreeSlot(A3().table, 3);
    ForkLeavesNobody(A3(), true);
    ForkRuns(A3());
    Leads(A3(), Fork(true), ForkStep(A3(), true), []);
  }

  lemma ForkRuns(k: KState)
    requires Good(k) && !k.faulted && k.current != 0
    ensures Step(k, Fork(true)) == ForkStep(k, true) && !ForkStep(k, true).faulted
  {
    hide Good, FindUnused, DefaultHandlers;
  }

  /** The first step of a run. */
  lemma Leads(k: KState, a: Action, k': KState, rest: seq<Action>)
    requires Good(k) && Step(k, a) == k'
    ensures Good(k') && Run(k, [a] + rest) == Run(k', rest)
  {
    hide Good, Step;
    GoodStep(k, a);
    assert ([a] + rest)[1..] == rest;
  }

  // ----- continuing a job while the foreground process sleeps

  function B3(): KState {
    Running4(Four(Idle(Ready), First(Running, 0), Child(2, Ready, 1), Child(3, Ready, 2)), [2, 3], [], 1, NIL, 4, 3, 1)
  }

  lemma SecondFork()
    requires Good(A2())
    ensures Step(A2(), Fork(true)) == B3()
  {
    hide Good, Four, DefaultHandlers, FindUnused, ForkStep;
    FourAt(Idle(Ready), First(Running, 0), Child(2, Ready, 1), Blank());
    FreeSlot(A2().table, 3);
    ForkExact(A2(), 3);
    FourSet(Idle(Ready), First(Running, 0), Child(2, Ready, 1), Blank(), Child(3, Ready, 2));
  }

  function Signalled(s: Signal): Process {
    Child(3, Ready, 2).(signals := {s})
  }

  function B4(): KState {
    B3().(table := Four(Idle(Ready), First(Running, 0), Child(2, Ready, 1), Signalled(SIGSTOP)))
  }

  lemma StopSent()
    requires Good(B3())
    ensures Step(B3(), KillCall(3, SIGSTOP)) == B4()
  {
    hide Good, Four, DefaultHandlers;
    FourAt(Idle(Ready), First(Running, 0), Child(2, Ready, 1), Child(3, Ready, 2));
    assert GetProcess(B3(), 3) == 3;
    FourSet(Idle(Ready), First(Running, 0), Child(2, Ready, 1), Child(3, Ready, 2), Signalled(SIGSTOP));
    assert Post({}, SIGSTOP) == {SIGSTOP};
  }

  function B5(): KState {
    Running4(Four(Idle(Ready), First(Ready, 3), Child(2, Running, 1), Signalled(SIGSTOP)), [3, 1], [], 2, 2, 4, 4, 2)
  }

  lemma SecondRuns()
    requires Good(B4())
    ensures Step(B4(), Timer) == B5()
  {
    hide Good, Four, DefaultHandlers;
    var i, p, c, d := Idle(Ready), First(Running, 0), Child(2, Ready, 1), Signalled(SIGSTOP);
    FourAt(i, p, c, d);
    QuietTimer(B4());
    FourSet(i, p, c, d, First(Ready, 3));
    FourSet(i, First(Ready, 3), c, d, Child(2, Running, 1));
    FourAt(i, First(Ready, 3), c, d);
    assert [2, 3] + [1] == [2, 3, 1] && [2, 3, 1][1..] == [3, 1];
  }

  /** The foreground process waits for a key. */
  function Reader(): Process {
    Child(2, Asleep, 1).(event := KEYBOARD_INPUT)
  }

  /** Init has been told of the stopped child. */
  function Told(s: State, pending: set<Signal>): Process {
    First(s, 3).(signals := pending, status := StoppedStatus(0), wpid := 3, jobs := 1)
  }

  function Halted(pending: set<Signal>): Process {
    Child(3, Stopped, 2).(status := StoppedStatus(0), jobSpec := 1, signals := pending)
  }

  function B6(): KState {
    Running4(Four(Idle(Ready), Told(Running, {}), Reader(), Halted({})), [], [2], 1, 2, 4, 4, 3).(suspended := [3])
  }

  /** The state in which schedule() finds the queues when the foreground process falls asleep. */
  function C0(): KState {
    B5().(table := Four(Idle(Ready), First(Ready, 3), Reader(), Signalled(SIGSTOP)), waiting := [2])
  }

  /** After the child at the head of the ready queue has been stopped. */
  function C1(pending: set<Signal>): KState {
    C0().(table := Four(Idle(Ready), Told(Ready, {SIGCHLD}), Reader(), Halted(pending)), ready := [1], suspended := [3])
  }

  lemma ReaderSleeps()
    ensures FallAsleep(B5(), KEYBOARD_INPUT) == C0()
  {
    hide Four, DefaultHandlers;
    var i, p, d := Idle(Ready), First(Ready, 3), Signalled(SIGSTOP);
    FourAt(i, p, Child(2, Running, 1), d);
    FourSet(i, p, Child(2, Running, 1), d, Child(2, Running, 1).(event := KEYBOARD_INPUT));
    FourAt(i, p, Child(2, Running, 1).(event := KEYBOARD_INPUT), d);
    FourSet(i, p, Child(2, Running, 1).(event := KEYBOARD_INPUT), d, Reader());
  }

  /** Nobody waits for a stop or for the foreground. */
  lemma NobodyWakes(k: KState, event: int)
    requires k.waiting == [2] && k.table[2].event == KEYBOARD_INPUT && event != KEYBOARD_INPUT
    ensures WakeUp(k, event) == k
  {
  }

  /** The child with its status set, off the ready queue. */
  function Leaving(): Process {
    Signalled(SIGSTOP).(status := StoppedStatus(0))
  }

  function C2(): KState {
    C0().(ready := [1], table := Four(Idle(Ready), First(Ready, 3), Reader(), Leaving()))
  }

  function C3(): KState {
    C2().(table := Four(Idle(Ready), Told(Ready, {SIGCHLD}), Reader(), Leaving().(jobSpec := 1)))
  }

  lemma ChildReports()
    ensures GetProcess(C2(), 1) == 1 && ReportStop(C2(), 3, 1) == C3()
  {
    hide Four, DefaultHandlers, StoppedStatus;
    var i, p, r, d := Idle(Ready), First(Ready, 3), Reader(), Leaving();
    FourAt(i, p, r, d);
    assert p.signals + {SIGCHLD} == {SIGCHLD};
    var p1 := p.(signals := {SIGCHLD}, status := StoppedStatus(0));
    var p2 := p1.(wpid := 3);
    var p3 := p2.(jobs := 1);
    FourSet(i, p, r, d, p1);
    FourAt(i, p1, r, d);
    FourSet(i, p1, r, d, p2);
    FourAt(i, p2, r, d);
    FourSet(i, p2, r, d, p3);
    FourAt(i, p3, r, d);
    FourSet(i, p3, r, d, d.(jobSpec := 1));
  }

  lemma ChildStops()
    ensures StopHandler(C0(), 3) == C1({SIGSTOP})
  {
    hide Four, DefaultHandlers, StoppedStatus, WakeUp, ReportStop;
    var i, p, r, d := Idle(Ready), First(Ready, 3), Reader(), Signalled(SIGSTOP);
    FourAt(i, p, r, d);
    FourSet(i, p, r, d, Leaving());
    FourAt(i, p, r, Leaving());
    assert [3, 1][1..] == [1] && Without([3, 1], 3) == [1];
    assert LeaveActive(C0(), 3) == C0().(ready := [1]);
    ChildReports();
    var p3, d2 := Told(Ready, {SIGCHLD}), Leaving().(jobSpec := 1);
    FourAt(i, p3, r, d2);
    NobodyWakes(C3(), FG_PAUSED);
    assert GiveWay(C3(), 3, 1) == C3();
    FourSet(i, p3, r, d2, Halted({SIGSTOP}));
    FourAt(i, p3, r, Halted({SIGSTOP}));
    NobodyWakes(C1({SIGSTOP}), STATE_CHANGE);
    assert C3().suspended + [3] == [3];
    assert Suspend(C3(), 3) == C1({SIGSTOP});
  }

  /** The stop is the only signal; then the head of the queue is init, which drops its own. */
  lemma ChildChecked()
    ensures CheckPending(C0(), 3) == C1({}) && CheckPending(C1({}), 1) == C1({}).(table := B6Ready())
  {
    hide Four, DefaultHandlers, StoppedStatus, StopHandler, CheckFrom;
    ChildTakes();
    InitTakes();
    FourAt(Idle(Ready), First(Ready, 3), Reader(), Signalled(SIGSTOP));
    OnePending(C0(), 3, 0, SIGSTOP);
    FourAt(Idle(Ready), Told(Ready, {SIGCHLD}), Reader(), Halted({}));
    NothingPending(C1({}), 3, SIGSTOP + 1);
    OnePending(C1({}), 1, 0, SIGCHLD);
    FourAt(Idle(Ready), Told(Ready, {}), Reader(), Halted({}));
    NothingPending(C1({}).(table := B6Ready()), 1, SIGCHLD + 1);
  }

  function B6Ready(): Table {
    Four(Idle(Ready), Told(Ready, {}), Reader(), Halted({}))
  }

  lemma DefaultOf()
    ensures DefaultHandlers()[SIGSTOP] == DefaultHandlers()[SIGCONT] == KernelHandler
    ensures DefaultHandlers()[SIGCHLD] == NoHandler
  {
  }

  lemma ChildTakes()
    ensures TakeSignal(C0(), 3, SIGSTOP) == C1({})
  {
    hide Four, DefaultHandlers, StoppedStatus, StopHandler;
    DefaultOf();
    ChildStops();
    FourAt(Idle(Ready), First(Ready, 3), Reader(), Signalled(SIGSTOP));
    FourAt(Idle(Ready), Told(Ready, {SIGCHLD}), Reader(), Halted({SIGSTOP}));
    assert Toggle({SIGSTOP}, SIGSTOP) == {};
    FourSet(Idle(Ready), Told(Ready, {SIGCHLD}), Reader(), Halted({SIGSTOP}), Halted({}));
  }

  lemma InitTakes()
    ensures TakeSignal(C1({}), 1, SIGCHLD) == C1({}).(table := B6Ready())
  {
    hide Four, DefaultHandlers, StoppedStatus;
    DefaultOf();
    FourAt(Idle(Ready), Told(Ready, {SIGCHLD}), Reader(), Halted({}));
    assert Toggle({SIGCHLD}, SIGCHLD) == {};
    FourSet(Idle(Ready), Told(Ready, {SIGCHLD}), Reader(), Halted({}), Told(Ready, {}));
    FourAt(Idle(Ready), Told(Ready, {}), Reader(), Halted({}));
  }

  lemma ReaderWaits()
    requires Good(B5())
    ensures Step(B5(), Sleep(KEYBOARD_INPUT)) == B6()
  {
    hide Good, Inv, Four, DefaultHandlers, StoppedStatus, CheckPending, FallAsleep, B6Ready, C0, C1;
    ReaderSleeps();
    FallAsleepReady(B5(), KEYBOARD_INPUT);
    TwoChecks();
    LastDispatch();
  }

  /** The loop over the ready queue loses the child and stops at init. */
  lemma TwoChecks()
    requires Inv(C0(), {})
    ensures Schedule(C0()) == Dispatch(C1({}).(table := B6Ready()))
  {
    hide Inv, Four, DefaultHandlers, StoppedStatus, CheckPending, B6Ready, Dispatch, Live;
    ChildChecked();
    HeadProgress(C0());
    SteadyInv(C0(), C1({}));
  }

  lemma LastDispatch()
    ensures Dispatch(C1({}).(table := B6Ready())) == B6()
  {
    hide Four, DefaultHandlers, StoppedStatus;
    FourAt(Idle(Ready), Told(Ready, {}), Reader(), Halted({}));
    FourSet(Idle(Ready), Told(Ready, {}), Reader(), Halted({}), Told(Running, {}));
  }

  function B7(): KState {
    B6().(table := Four(Idle(Ready), Told(Running, {}), Reader(), Halted({SIGCONT})))
  }

  lemma ContinueSent()
    requires Good(B6())
    ensures Step(B6(), KillCall(3, SIGCONT)) == B7()
  {
    hide Good, Four, DefaultHandlers, StoppedStatus;
    FourAt(Idle(Ready), Told(Running, {}), Reader(), Halted({}));
    assert GetProcess(B6(), 3) == 3;
    FourSet(Idle(Ready), Told(Running, {}), Reader(), Halted({}), Halted({SIGCONT}));
    assert Post({}, SIGCONT) == {SIGCONT};
  }

  /** Init falls asleep behind the reader; the child is to be continued, and the reader, who holds
      the foreground, is neither ready nor the last sleeper. */
  lemma InitWaits()
    requires Good(B7())
    ensures Step(B7(), Sleep(KEYBOARD_INPUT)).faulted
  {
    hide Good, Inv, Four, DefaultHandlers, StoppedStatus, CheckFrom, TakeSignal;
    FourAt(Idle(Ready), Told(Running, {}), Reader(), Halted({SIGCONT}));
    FallAsleepReady(B7(), KEYBOARD_INPUT);
    var k := FallAsleep(B7(), KEYBOARD_INPUT);
    assert k.suspended == [3] && k.waiting == [2, 1] && k.foreground == 2 && k.ready == [];
    assert k.table[3] == Halted({SIGCONT});
    OnePending(k, 3, 0, SIGCONT);
    ContinueFaults(k);
    FaultedCheck(TakeSignal(k, 3, SIGCONT), 3, SIGCONT + 1);
  }

  lemma FaultedCheck(k: KState, i: Slot, n: nat)
    requires n <= TOTAL_SIGNALS && k.faulted
    ensures CheckFrom(k, i, n) == k
  {
  }

  lemma ContinueFaults(k: KState)
    requires !k.faulted && k.table[3] == Halted({SIGCONT}) && k.foreground == 2 && k.ready == [] && k.waiting == [2, 1]
    ensures TakeSignal(k, 3, SIGCONT).faulted
  {
    hide ContinueHandler, DefaultHandlers, StoppedStatus;
    DefaultOf();
    ContinueFaultsIff(k, 3);
  }

  /** Init stops a child that has not run yet; another child, in the foreground, waits for a key;
      init sends the continue signal and falls asleep too. The scheduler then continues the
      child and pushes the foreground process onto the wait list, ahead of init. */
  lemma ContinueBreaks()
    ensures Good(Boot())
    ensures Run(Boot(), [Timer, Fork(true), Fork(true), KillCall(3, SIGSTOP), Timer, Sleep(KEYBOARD_INPUT),
                         KillCall(3, SIGCONT), Sleep(KEYBOARD_INPUT)]).faulted
  {
    hide Good, A1, A2, B3, B4, B5, B6, B7, Boot, Step;
    var a, b, c, d := KillCall(3, SIGSTOP), Timer, Sleep(KEYBOARD_INPUT), KillCall(3, SIGCONT);
    BootTick();
    Leads(Boot(), Timer, A1(), [Fork(true), Fork(true), a, b, c, d, c]);
    FirstFork();
    Leads(A1(), Fork(true), A2(), [Fork(true), a, b, c, d, c]);
    SecondFork();
    Leads(A2(), Fork(true), B3(), [a, b, c, d, c]);
    StopSent();
    Leads(B3(), a, B4(), [b, c, d, c]);
    SecondRuns();
    Leads(B4(), b, B5(), [c, d, c]);
    ReaderWaits();
    Leads(B5(), c, B6(), [d, c]);
    ContinueSent();
    Leads(B6(), d, B7(), [c]);
    InitWaits();
    Leads(B7(), c, Step(B7(), c), []);
  }

  // ----- SIGKILL without a living init

  function InitGone(): Process {
    First(Killed, 0).(status := ExitStatus(0), event := 1, ppid := 1)
  }

  function K2(): KState {
    A2().(table := Four(Idle(Ready), InitGone(), Child(2, Ready, 1), Blank()), zombies := [1])
  }

  function K3(): KState {
    K2().(table := Four(Idle(Ready), InitGone(), Child(2, Running, 1), Blank()), ready := [], current := 2,
          foreground := 2, schedules := 2)
  }

  lemma InitExits()
    ensures Exit(A2(), 1, ExitStatus(0)) == K2()
  {
    hide Four, DefaultHandlers, ExitStatus;
    var i, p, c := Idle(Ready), First(Running, 0), Child(2, Ready, 1);
    var p1 := p.(status := ExitStatus(0), state := Killed, event := 1);
    FourAt(i, p, c, Blank());
    FourSet(i, p, c, Blank(), p1);
    FourAt(i, p1, c, Blank());
    var k1 := MarkDead(A2(), 1, ExitStatus(0));
    assert k1 == A2().(table := Four(i, p1, c, Blank()));
    assert ParentOf(k1, 1) == NIL;
    FourSet(i, p1, c, Blank(), InitGone());
    var k2 := Announce(k1, 1, NIL);
    FourAt(i, InitGone(), c, Blank());
    assert GetProcess(k2, 1) == 1;
  }

  lemma InitLeaves()
    requires Good(A2())
    ensures Step(A2(), ExitCall(0)) == K3()
  {
    hide Good, Inv, Four, DefaultHandlers, ExitStatus, Schedule, Exit;
    FourAt(Idle(Ready), First(Running, 0), Child(2, Ready, 1), Blank());
    ExitReady(A2(), ExitStatus(0));
    InitExits();
    var i, p, c := Idle(Ready), InitGone(), Child(2, Ready, 1);
    FourAt(i, p, c, Blank());
    QuietSchedule(K2());
    FourSet(i, p, c, Blank(), Child(2, Running, 1));
  }

  function Grown(s: State, arrival: nat): Process {
    Child(3, s, arrival).(ppid := 2)
  }

  function K4(): KState {
    K3().(table := Four(Idle(Ready), InitGone(), Child(2, Running, 1), Grown(Ready, 2)), ready := [3],
          foreground := NIL, nextPid := 4, arrivals := 3)
  }

  lemma OrphanForks()
    requires Good(K3())
    ensures Step(K3(), Fork(true)) == K4()
  {
    hide Good, Four, DefaultHandlers, ExitStatus, FindUnused, ForkStep;
    FourAt(Idle(Ready), InitGone(), Child(2, Running, 1), Blank());
    FreeSlot(K3().table, 3);
    ForkExact(K3(), 3);
    FourSet(Idle(Ready), InitGone(), Child(2, Running, 1), Blank(), Grown(Ready, 2));
  }

  function Condemned(s: State, arrival: nat): Process {
    Child(2, s, arrival).(signals := {SIGKILL})
  }

  function K5(): KState {
    K4().(table := Four(Idle(Ready), InitGone(), Condemned(Running, 1), Grown(Ready, 2)))
  }

  lemma KillsItself()
    requires Good(K4())
    ensures Step(K4(), KillCall(2, SIGKILL)) == K5()
  {
    hide Good, Four, DefaultHandlers, ExitStatus;
    var i, p, c, d := Idle(Ready), InitGone(), Child(2, Running, 1), Grown(Ready, 2);
    FourAt(i, p, c, d);
    assert GetProcess(K4(), 2) == 2;
    FourSet(i, p, c, d, Condemned(Running, 1));
    assert Post({}, SIGKILL) == {SIGKILL};
  }

  function K6(): KState {
    K5().(table := Four(Idle(Ready), InitGone(), Condemned(Ready, 3), Grown(Running, 2)), ready := [2], current := 3,
          foreground := 3, arrivals := 4, schedules := 3)
  }

  lemma GrownRuns()
    requires Good(K5())
    ensures Step(K5(), Timer) == K6()
  {
    hide Good, Inv, Four, DefaultHandlers, ExitStatus, Schedule;
    var i, p, c, d := Idle(Ready), InitGone(), Condemned(Running, 1), Grown(Ready, 2);
    var c' := Condemned(Ready, 3);
    FourAt(i, p, c, d);
    assert K5().ready + [2] == [3, 2];
    QuietTimer(K5());
    FourSet(i, p, c, d, c');
    FourAt(i, p, c', d);
    FourSet(i, p, c', d, Grown(Running, 2));
  }

  /** Init exits; its child forks and sends itself SIGKILL. When the next tick checks it, the
      group signal of the handler reaches the grandchild. */
  lemma KillReachesGroup()
    ensures Good(Boot())
    ensures var k := Run(Boot(), [Timer, Fork(true), ExitCall(0), Fork(true), KillCall(2, SIGKILL), Timer]);
      && !k.faulted && k.ready == [2] && SIGKILL in k.table[2].signals && k.current == 3
      && SIGKILL !in Preempt(k).table[3].signals && SIGKILL in KillHandler(Preempt(k), 2).table[3].signals
  {
    hide Good, A1, A2, K3, K4, K5, K6, Boot, Step, KillHandler, Preempt;
    var a, b, c, d := ExitCall(0), Fork(true), KillCall(2, SIGKILL), Timer;
    BootTick();
    Leads(Boot(), Timer, A1(), [Fork(true), a, b, c, d]);
    FirstFork();
    Leads(A1(), Fork(true), A2(), [a, b, c, d]);
    InitLeaves();
    Leads(A2(), a, K3(), [b, c, d]);
    OrphanForks();
    Leads(K3(), b, K4(), [c, d]);
    KillsItself();
    Leads(K4(), c, K5(), [d]);
    GrownRuns();
    Leads(K5(), d, K6(), []);
    GroupReached();
  }

  lemma GroupReached()
    requires Good(K6())
    ensures var k := K6();
      && !k.faulted && k.ready == [2] && SIGKILL in k.table[2].signals && k.current == 3
      && SIGKILL !in Preempt(k).table[3].signals && SIGKILL in KillHandler(Preempt(k), 2).table[3].signals
  {
    hide Good, Inv, KillHandler, Four, DefaultHandlers, ExitStatus, InitLives;
    FourAt(Idle(Ready), InitGone(), Condemned(Ready, 3), Grown(Running, 2));
    PreemptReady(K6());
    InitIsGone(Preempt(K6()));
    KillReachesChildrenIff(Preempt(K6()), 2, 3);
  }

  lemma InitIsGone(k: KState)
    requires k.table[1] == InitGone()
    ensures !InitLives(k)
  {
    hide DefaultHandlers, ExitStatus;
    assert GetProcess(k, 1) == 1;
  }
}
