/** Whole runs of the process state: the invariant, bounded waiting, and the life cycle of a
    table slot. */
module KernelRuns {
  import opened Sequences
  import opened ProcessModel
  import opened ProcessInvariant
  import opened WakeupProofs
  import opened SignalProofs
  import opened HandlerProofs
  import opened PendingProofs
  import opened Scheduler
  import opened KernelSteps
  import opened ProcessCalls
  import opened ProcessWait

  /** A system call of the current process, or an interrupt. `copied` says whether fork could
      copy its parent's memory; `found`, `background` and `loaded` say whether exec found
      the program, met an argument "&" and could read the program; `resumed` marks a pass of
      wait's loop after a wake-up. */
  datatype Action =
    | Timer
    | Input
    | ControlKey(key: Signal)
    | Sleep(event: int)
    | ExitCall(status: bv32)
    | Fork(copied: bool)
    | Exec(found: bool, background: bool, loaded: bool)
    | Wait(pid: int, noHang: bool, untraced: bool, resumed: bool)
    | KillCall(pid: int, sig: int)
    | Foreground(jobSpec: int)
    | Background(jobSpec: int)
    | Register(sig: int, handler: Handler)

  /** System calls come from a process other than the idle one. The broadcast of SIGHUP, the
      one signal whose broadcast reaps processes, is outside the runs. */
  predicate Enabled(k: KState, a: Action) {
    && !k.faulted
    && (a.Timer? || a.Input? || a.ControlKey? || k.current != 0)
    && !(a.KillCall? && a.pid == -1 && a.sig == SIGHUP)
  }

  function Step(k: KState, a: Action): KState
    requires Good(k)
  {
    if !Enabled(k, a) then k
    else
      match a
      case Timer => TimerStep(k)
      case Input => WakeUp(k, KEYBOARD_INPUT)
      case ControlKey(key) => Interrupt(k, key)
      case Sleep(event) => SleepStep(k, event)
      case ExitCall(status) => ExitStep(k, status)
      case Fork(copied) => ForkStep(k, copied)
      case Exec(found, background, loaded) => ExecStep(k, found, background, loaded)
      case Wait(pid, noHang, untraced, resumed) => WaitStep(k, pid, noHang, untraced, resumed)
      case KillCall(pid, sig) => if pid == 1 then k else Kill(k, k.table[k.current].pid, pid, sig)
      case Foreground(jobSpec) => ForegroundStep(k, jobSpec)
      case Background(jobSpec) => BackgroundStep(k, jobSpec)
      case Register(sig, handler) => RegisterStep(k, sig, handler)
  }

  lemma BootTable()
    ensures var t := Boot().table;
      && (forall i: Slot :: i != 0 && i != 1 ==> t[i] == Blank())
      && t[0] == Blank().(state := Running, daemon := true) && t[1] == InitProcess()
  {
  }

  lemma BootData()
    ensures Data(Boot())
  {
    BootTable();
    hide BlankTable, DefaultHandlers;
  }

  lemma GoodBoot()
    ensures Good(Boot())
  {
    BootTable();
    BootData();
    hide Data, BlankTable, DefaultHandlers;
  }

  lemma GoodStep(k: KState, a: Action)
    requires Good(k)
    ensures Good(Step(k, a))
  {
    hide Good, TimerStep, SleepStep, ExitStep, ForkStep, ExecStep, WaitStep, Kill, WakeUp, Interrupt,
      ForegroundStep, BackgroundStep, RegisterStep;
    if Enabled(k, a) {
      match a
      case Timer => GoodTimer(k);
      case Input => GoodWakeUp(k, KEYBOARD_INPUT);
      case ControlKey(key) => GoodInterrupt(k, key);
      case Sleep(event) => GoodSleep(k, event);
      case ExitCall(status) => GoodExit(k, status);
      case Fork(copied) => GoodFork(k, copied);
      case Exec(found, background, loaded) => GoodExec(k, found, background, loaded);
      case Wait(pid, noHang, untraced, resumed) => GoodWait(k, pid, noHang, untraced, resumed);
      case KillCall(pid, sig) => GoodKill(k, k.table[k.current].pid, pid, sig);
      case Foreground(jobSpec) => GoodForegroundStep(k, jobSpec);
      case Background(jobSpec) => GoodBackground(k, jobSpec);
      case Register(sig, handler) => GoodRegister(k, sig, handler);
    }
  }

  function Run(k: KState, acts: seq<Action>): (r: KState)
    requires Good(k)
    ensures Good(r)
    decreases |acts|
  {
    if acts == [] then k
    else
      GoodStep(k, acts[0]);
      Run(Step(k, acts[0]), acts[1..])
  }

  /** In every state that a run from boot can reach, the four queues are duplicate-free and
      hold exactly the processes in their state; running, unused and half-created processes
      and the idle process are on none. */
  lemma ReachableQueues(acts: seq<Action>)
    ensures Good(Boot())
    ensures var k := Run(Boot(), acts);
      && NoDup(k.ready) && NoDup(k.waiting) && NoDup(k.suspended) && NoDup(k.zombies)
      && (forall i: Slot :: i != 0 ==>
            && (i in k.ready <==> k.table[i].state == Ready)
            && (i in k.waiting <==> k.table[i].state == Asleep)
            && (i in k.suspended <==> k.table[i].state == Stopped)
            && (i in k.zombies <==> k.table[i].state == Killed))
      && 0 !in k.ready && 0 !in k.waiting && 0 !in k.suspended && 0 !in k.zombies
      && (forall i: Slot :: k.table[i].state == Running ==> i == k.current)
      && (k.faulted || k.table[k.current].state == Running)
  {
    GoodBoot();
    var k := Run(Boot(), acts);
    GoodParts(k);
    GoodInv(k);
    OnlyCurrentRuns(k);
    hide Data, InOrder, NoDup, Run, Boot;
  }

  /** In every reachable state PIDs are distinct and a PID is never reaped twice nor given to
      an occupied slot again; a zombie's event is its PID; no process has SIGCONT pending
      together with SIGSTOP or SIGTSTP; and a job number names at most one child of any
      parent but init. */
  lemma ReachableIdentities(acts: seq<Action>)
    ensures Good(Boot())
    ensures var k := Run(Boot(), acts);
      && (forall i: Slot, j: Slot :: 1 <= i < j && Occupied(k.table[i]) && Occupied(k.table[j]) ==>
            k.table[i].pid != k.table[j].pid)
      && NoDup(k.reaped)
      && (forall i: Slot :: 1 <= i && Occupied(k.table[i]) ==> k.table[i].pid !in k.reaped)
      && (forall i: Slot :: 1 <= i && k.table[i].state == Killed ==> k.table[i].event == k.table[i].pid)
      && (forall i: Slot :: SIGCONT in k.table[i].signals ==>
            SIGSTOP !in k.table[i].signals && SIGTSTP !in k.table[i].signals)
  {
    GoodBoot();
    var k := Run(Boot(), acts);
    GoodParts(k);
    hide Queues, InOrder, NoDup, Run, Boot, Jobs;
  }

  /** find_job's first match is the only match, outside init's children. */
  lemma ReachableJobs(acts: seq<Action>, jobSpec: int, ppid: int, i: Slot)
    requires ppid != 1 && jobSpec > 0
    ensures Good(Boot())
    ensures var k := Run(Boot(), acts);
      i != 0 && Occupied(k.table[i]) && k.table[i].ppid == ppid && k.table[i].jobSpec == jobSpec ==>
        FindJob(k, jobSpec, ppid) == i
  {
    hide Good, Run, Boot, FindJob;
    GoodBoot();
    var k := Run(Boot(), acts);
    GoodJobs(k);
    OneJob(k, jobSpec, ppid, i);
  }

  lemma GoodJobs(k: KState)
    requires Good(k)
    ensures Jobs(k.table)
  {
    hide Queues, InOrder, Pids, Reaped, Running1, SignalSets, Jobs;
  }

  lemma OneJob(k: KState, jobSpec: int, ppid: int, i: Slot)
    requires Jobs(k.table) && ppid != 1 && jobSpec > 0
    ensures i != 0 && Occupied(k.table[i]) && k.table[i].ppid == ppid && k.table[i].jobSpec == jobSpec ==>
      FindJob(k, jobSpec, ppid) == i
  {
    hide FindJobFrom;
    var r := FindJobFrom(k.table, jobSpec, ppid, 1);
  }

  // ----- slots and waiting over one step

  predicate SameSlot(p: Process, q: Process) {
    && q.pid == p.pid
    && (q.state == Unused <==> p.state == Unused)
    && (q.state == Init <==> p.state == Init)
    && (p.state == Killed ==> q.state == Killed)
    && (Armed(p.handlers) ==> Armed(q.handlers))
    && (q.ppid == p.ppid || q.ppid == 1)
  }

  /** The slots of the ready queue that arrived before stamp `a`. */
  ghost function Ahead(k: KState, a: nat): set<Slot> {
    set i: Slot | 0 <= i < TABLE_SIZE && i in k.ready && k.table[i].arrival < a
  }

  /** A ready-queue entry of `k'` that is older than `k` was already in `k`, and every call of
      the scheduler in between has taken one entry ahead of it off the queue. */
  ghost predicate Ages(k: KState, k': KState) {
    && k.arrivals <= k'.arrivals && k.schedules <= k'.schedules
    && (forall i :: i in k'.ready && k'.table[i].arrival < k.arrivals ==>
          && i in k.ready && k.table[i].arrival == k'.table[i].arrival
          && |Ahead(k', k'.table[i].arrival)| + (k'.schedules - k.schedules) <= |Ahead(k, k'.table[i].arrival)|)
  }

  ghost predicate SlotsSame(k: KState, k': KState) {
    && k'.reaped == k.reaped
    && forall i: Slot :: SameSlot(k.table[i], k'.table[i])
  }

  ghost predicate Continues(k: KState, k': KState) {
    Ages(k, k') && SlotsSame(k, k')
  }

  lemma AgesThen(a: KState, b: KState, c: KState)
    requires Ages(a, b) && Ages(b, c)
    ensures Ages(a, c)
  {
    hide Ahead;
  }

  lemma SlotsSameThen(a: KState, b: KState, c: KState)
    requires SlotsSame(a, b) && SlotsSame(b, c)
    ensures SlotsSame(a, c)
  {
    forall i: Slot
      ensures SameSlot(a.table[i], c.table[i])
    {
      assert SameSlot(a.table[i], b.table[i]) && SameSlot(b.table[i], c.table[i]);
    }
  }

  lemma ContinuesThen(a: KState, b: KState, c: KState)
    requires Continues(a, b) && Continues(b, c)
    ensures Continues(a, c)
  {
    hide Ages, SlotsSame;
    AgesThen(a, b, c);
    SlotsSameThen(a, b, c);
  }

  lemma AheadShrinks(k: KState, k': KState, a: nat)
    requires forall i :: i in k'.ready && k'.table[i].arrival < a ==> i in k.ready && k.table[i].arrival < a
    ensures |Ahead(k', a)| <= |Ahead(k, a)|
  {
    SubsetSize(Ahead(k', a), Ahead(k, a));
  }

  lemma QueueAges(k: KState, k': KState)
    requires k.arrivals <= k'.arrivals && k'.schedules == k.schedules
    requires forall i :: i in k'.ready && k'.table[i].arrival < k.arrivals ==>
      i in k.ready && k.table[i].arrival == k'.table[i].arrival
    ensures Ages(k, k')
  {
    forall i | i in k'.ready && k'.table[i].arrival < k.arrivals
      ensures |Ahead(k', k'.table[i].arrival)| <= |Ahead(k, k'.table[i].arrival)|
    {
      AheadShrinks(k, k', k'.table[i].arrival);
    }
    hide Ahead;
  }

  lemma FollowsContinues(k: KState, k': KState)
    requires Follows(k, k')
    ensures Continues(k, k')
  {
    QueueAges(k, k');
    hide Ages;
    forall i: Slot
      ensures SameSlot(k.table[i], k'.table[i])
    {
      assert EntryFollows(k.table[i], k'.table[i]);
    }
  }

  lemma SteadyContinues(k: KState, k': KState)
    requires Steady(k, k')
    ensures Continues(k, k')
  {
    hide Inv, Follows, Continues;
    SteadyParts(k, k');
    FollowsContinues(k, k');
  }

  lemma CalmContinues(k: KState, k': KState)
    requires Calm(k, k', {})
    ensures Continues(k, k')
  {
    hide Steady, Continues, Calm;
    CalmSteady(k, k');
    SteadyContinues(k, k');
  }

  lemma SelfContinues(k: KState)
    ensures Continues(k, k)
  {
    QueueAges(k, k);
    hide Ages;
  }

  lemma DispatchAges(k: KState)
    requires Inv(k, {})
    ensures Ages(k, Dispatch(k))
  {
    InvParts(k);
    hide Inv;
    var k' := Dispatch(k);
    if k.ready != [] {
      InOrderRest(k.table, k.ready, k.arrivals);
      forall i | i in k'.ready && k'.table[i].arrival < k.arrivals
        ensures i in k.ready && k.table[i].arrival == k'.table[i].arrival
        ensures |Ahead(k', k'.table[i].arrival)| + 1 <= |Ahead(k, k'.table[i].arrival)|
      {
        DispatchTakes(k, i);
      }
      hide Ahead, InOrder;
    }
  }

  lemma InvParts(k: KState)
    requires Inv(k, {})
    ensures NoDup(k.ready) && InOrder(k.table, k.ready, k.arrivals)
  {
  }

  lemma DispatchTakes(k: KState, i: Slot)
    requires NoDup(k.ready) && InOrder(k.table, k.ready, k.arrivals) && k.ready != []
    requires i in k.ready[1..]
    ensures var k' := Dispatch(k);
      && k'.table[i].arrival == k.table[i].arrival
      && |Ahead(k', k'.table[i].arrival)| + 1 <= |Ahead(k, k'.table[i].arrival)|
  {
    var k' := Dispatch(k);
    var c := k.ready[0];
    var a := k.table[i].arrival;
    InOrderRest(k.table, k.ready, k.arrivals);
    assert c !in k.ready[1..] by {
      assert forall j :: 0 <= j < |k.ready| - 1 ==> k.ready[1..][j] == k.ready[j+1];
    }
    hide NoDup, InOrder;
    assert c in Ahead(k, a);
    assert Ahead(k', a) <= Ahead(k, a) - {c};
    SubsetSize(Ahead(k', a), Ahead(k, a) - {c});
  }

  lemma DispatchSlots(k: KState)
    requires Inv(k, {})
    ensures SlotsSame(k, Dispatch(k))
  {
    hide Inv, SlotsSame;
    var c: Slot := if k.ready == [] then 0 else k.ready[0];
    if k.ready != [] {
      ReadySlot(k, c);
    }
    InvIdle(k);
    var q := k.table[c].(state := Running);
    SlotsSamePut(k, c, q);
    SlotsSameTable(k, Put(k, c, q), Dispatch(k));
  }

  lemma SlotsSameTable(k: KState, a: KState, b: KState)
    requires SlotsSame(k, a) && b.table == a.table && b.reaped == a.reaped
    ensures SlotsSame(k, b)
  {
  }

  lemma SlotsSamePut(k: KState, i: Slot, q: Process)
    requires SameSlot(k.table[i], q)
    ensures SlotsSame(k, Put(k, i, q))
  {
  }

  lemma InvIdle(k: KState)
    requires Inv(k, {})
    ensures k.table[0].state == Running || k.table[0].state == Ready
  {
    hide Queues, InOrder, Pids, Reaped, SignalSets, Jobs;
  }

  lemma ContinuesSchedule(k: KState)
    requires Inv(k, {}) && !k.faulted
    ensures Continues(k, Schedule(k))
  {
    hide Inv, Steady, Continues, CheckSuspended, Dispatch;
    var k1 := CheckSuspended(k, k.suspended);
    SuspendedJobs(k);
    SteadyCheckSuspended(k, k.suspended);
    SteadyInv(k, k1);
    SteadyContinues(k, k1);
    if !k1.faulted {
      var k2 := CheckReady(k1);
      SteadyCheckReady(k1);
      SteadyInv(k1, k2);
      SteadyContinues(k1, k2);
      ContinuesThen(k, k1, k2);
      if !k2.faulted {
        ContinuesDispatch(k2);
        ContinuesThen(k, k2, Dispatch(k2));
      }
    }
  }

  lemma ContinuesDispatch(k: KState)
    requires Inv(k, {})
    ensures Continues(k, Dispatch(k))
  {
    hide Inv, Dispatch, Ages, SlotsSame;
    DispatchAges(k);
    DispatchSlots(k);
  }

  lemma ContinuesTimer(k: KState)
    requires Good(k) && !k.faulted
    ensures Continues(k, TimerStep(k))
  {
    hide Good, Inv, Parking, Schedule, Preempt, WakeUp, Calm, Follows, Continues;
    var k1 := WakeUp(k, SLEEP_SYSCALL);
    GoodInv(k);
    CalmWakeUp(k, SLEEP_SYSCALL, {});
    CalmContinues(k, k1);
    GoodCalm(k, k1);
    CalmQueues(k, k1, {});
    if k1.ready != [] {
      PreemptReady(k1);
      FollowsContinues(k1, Preempt(k1));
      ContinuesThen(k, k1, Preempt(k1));
      ContinuesSchedule(Preempt(k1));
      ContinuesThen(k, Preempt(k1), Schedule(Preempt(k1)));
    }
  }

  lemma ContinuesSleep(k: KState, event: int)
    requires Good(k) && !k.faulted && k.current != 0
    ensures Continues(k, SleepStep(k, event))
  {
    hide Good, Inv, Parking, Schedule, FallAsleep, Follows, Continues;
    FallAsleepReady(k, event);
    FollowsContinues(k, FallAsleep(k, event));
    ContinuesSchedule(FallAsleep(k, event));
    ContinuesThen(k, FallAsleep(k, event), SleepStep(k, event));
  }

  lemma ContinuesExit(k: KState, status: bv32)
    requires Good(k) && !k.faulted && k.current != 0
    ensures Continues(k, ExitStep(k, status))
  {
    hide Good, Inv, Parking, Schedule, Exit, Follows, Continues;
    ExitReady(k, ExitStatus(status));
    var k1 := Exit(k, k.current, ExitStatus(status));
    FollowsContinues(k, k1);
    ContinuesSchedule(k1);
    ContinuesThen(k, k1, ExitStep(k, status));
  }

  lemma ContinuesPut(k: KState, i: Slot, q: Process)
    requires SameSlot(k.table[i], q) && q.arrival == k.table[i].arrival
    ensures Continues(k, Put(k, i, q))
  {
    hide SlotsSame, Ages;
    SlotsSamePut(k, i, q);
    QueueAges(k, Put(k, i, q));
  }

  lemma ContinuesForeground(k: KState, f: Link)
    ensures Continues(k, k.(foreground := f))
  {
    QueueAges(k, k.(foreground := f));
    hide Ages;
  }

  lemma ContinuesDetach(k: KState)
    requires Good(k) && !k.faulted && k.current != 0
    ensures Continues(k, Detach(k))
  {
    hide Good, Continues, NewJob, Calm, Inv;
    GoodInv(k);
    CurrentSlot(k);
    var i := k.current;
    var parent := ParentOf(k, i);
    var k1 := if parent != NIL && k.table[parent].state != Killed then NewJob(k, parent, i) else k;
    CalmSelf(k, {});
    if parent != NIL && k.table[parent].state != Killed {
      CalmNewJob(k, parent, i, {});
    }
    CalmContinues(k, k1);
    ContinuesPut(k1, i, k1.table[i].(daemon := true));
    var k2 := Put(k1, i, k1.table[i].(daemon := true));
    ContinuesThen(k, k1, k2);
    ContinuesForeground(k2, NIL);
    ContinuesThen(k, k2, k2.(foreground := NIL));
  }

  lemma ContinuesExec(k: KState, found: bool, background: bool, loaded: bool)
    requires Good(k) && !k.faulted && k.current != 0
    ensures Continues(k, ExecStep(k, found, background, loaded))
  {
    hide Good, Inv, Detach, ExitStep, Continues, Calm;
    SelfContinues(k);
    if found {
      var k1 := if background then Detach(k) else k;
      GoodDetach(k);
      ContinuesDetach(k);
      if loaded {
        GoodInv(k1);
        CurrentSlot(k1);
        var q := k1.table[k1.current].(signals := {}, handlers := DefaultHandlers());
        CalmPut(k1, k1.current, q, {});
        CalmContinues(k1, Put(k1, k1.current, q));
        ContinuesThen(k, k1, Put(k1, k1.current, q));
      } else {
        ContinuesExit(k1, 1);
        ContinuesThen(k, k1, ExitStep(k1, 1));
      }
    }
  }

  lemma ContinuesKill(k: KState, sender: int, pid: int, sig: int)
    requires Good(k)
    ensures Continues(k, Kill(k, sender, pid, sig))
  {
    hide Good, Inv, Kill, Calm, Continues;
    GoodInv(k);
    CalmKill(k, sender, pid, sig);
    CalmContinues(k, Kill(k, sender, pid, sig));
  }

  lemma ContinuesJobs(k: KState, jobSpec: int)
    requires Good(k) && !k.faulted
    ensures Continues(k, ForegroundStep(k, jobSpec)) && Continues(k, BackgroundStep(k, jobSpec))
  {
    hide Good, Inv, Steady, MoveToFore, Continues;
    GoodInv(k);
    SelfContinues(k);
    SteadyFault(k);
    SteadyContinues(k, k.(faulted := true));
    var x := FindJob(k, jobSpec, k.table[k.current].ppid);
    if x != NIL && Parked(k.table[x]) {
      SteadyMoveToFore(k, x);
      SteadyContinues(k, MoveToFore(k, x));
      if k.table[x].state == Stopped {
        var k' := BackgroundStep(k, jobSpec);
        SteadyPutParked(k, x, k'.table[x]);
        SteadyContinues(k, k');
      }
    }
  }

  lemma ContinuesRegister(k: KState, sig: int, handler: Handler)
    requires Good(k)
    ensures Continues(k, RegisterStep(k, sig, handler))
  {
    hide Good, Inv, Calm, Continues;
    GoodInv(k);
    SelfContinues(k);
    if 0 < sig < TOTAL_SIGNALS - 1 && sig != SIGKILL && sig != SIGSTOP {
      var q := k.table[k.current].(handlers := k.table[k.current].handlers[sig := handler]);
      SlotSound(k, k.current, {});
      CalmPut(k, k.current, q, {});
      CalmContinues(k, Put(k, k.current, q));
    }
  }

  // ----- the life cycle of a slot

  /** What a step does to the set of occupied slots. */
  datatype SlotEvent = NoChange | Born(slot: Slot, complete: bool) | Freed(slot: Slot)

  function WaitStart(k: KState, a: Action): KState
    requires a.Wait?
  {
    if a.resumed then k else SetWpid(k, a.pid)
  }

  function EventOf(k: KState, a: Action): SlotEvent {
    if !Enabled(k, a) then NoChange
    else if a.Fork? then
      var i := FindUnused(k.table, 1);
      if i == NIL then NoChange else Born(i, a.copied)
    else if a.Wait? && a.pid != 0 && -1 <= a.pid then
      match WaitEnding(WaitStart(k, a), a.pid, a.noHang, a.untraced)
      case Reaps(w) => Freed(w)
      case _ => NoChange
    else NoChange
  }

  /** Every other slot keeps its process, and a dead process stays dead. */
  ghost predicate OtherSlots(k: KState, k': KState, i: Slot) {
    forall j: Slot :: j != i ==> SameSlot(k.table[j], k'.table[j])
  }

  lemma ForkEvent(k: KState, copied: bool)
    requires Good(k) && !k.faulted && FindUnused(k.table, 1) != NIL
    ensures var k' := ForkStep(k, copied); var i := FindUnused(k.table, 1);
      && k'.table[i].state == (if copied then Ready else Init) && k'.table[i].pid == k.nextPid
      && (copied ==> Armed(k'.table[i].handlers))
      && k'.table[i].ppid == k.table[k.current].pid && k'.reaped == k.reaped
      && OtherSlots(k, k', i) && Ages(k, k')
  {
    var k', i := ForkStep(k, copied), FindUnused(k.table, 1);
    UnusedNotCurrent(k, i);
    hide Good, Ages;
    ForkTable(k, copied, i);
    ForkQueue(k, copied);
    QueueAges(k, k');
  }

  lemma ForkTable(k: KState, copied: bool, i: Slot)
    requires i == FindUnused(k.table, 1) && i != k.current
    ensures var k' := ForkStep(k, copied);
      && k'.reaped == k.reaped && (forall j: Slot :: j != i ==> k'.table[j] == k.table[j])
      && k'.table[i].state == (if copied then Ready else Init) && k'.table[i].pid == k.nextPid
      && (copied ==> Armed(k'.table[i].handlers))
      && k'.table[i].ppid == k.table[k.current].pid
  {
    hide FindUnused, DefaultHandlers;
    ConceiveNewborn(k, i);
    hide Conceive;
  }

  lemma UnusedNotCurrent(k: KState, i: Slot)
    requires Good(k) && !k.faulted && k.table[i].state == Unused
    ensures i != k.current && i !in k.ready
  {
    hide NoDup, InOrder, Data;
    InvIdleGood(k);
  }

  lemma InvIdleGood(k: KState)
    requires Good(k)
    ensures Occupied(k.table[0])
  {
    hide Queues, InOrder, Pids, Reaped, SignalSets, Jobs;
  }

  lemma ForkQueue(k: KState, copied: bool)
    requires FindUnused(k.table, 1) != NIL && FindUnused(k.table, 1) !in k.ready
    ensures var k' := ForkStep(k, copied); var i := FindUnused(k.table, 1);
      && k.arrivals <= k'.arrivals && k'.schedules == k.schedules
      && (forall j :: j in k'.ready && k'.table[j].arrival < k.arrivals ==>
            j in k.ready && k.table[j].arrival == k'.table[j].arrival)
  {
  }

  lemma ContinuesSetWpid(k: KState, pid: int)
    ensures Continues(k, SetWpid(k, pid))
  {
    hide Continues;
    ContinuesPut(k, k.current, k.table[k.current].(wpid := pid));
  }

  lemma ContinuesLook(k: KState, pid: int)
    requires Good(k)
    ensures Continues(k, WaitLook(k, pid))
    ensures forall i: Slot :: (WaitLook(k, pid).table[i].state == Killed <==> k.table[i].state == Killed)
  {
    hide Good, Inv, Calm, Foster, StoppedChild, Continues;
    SelfContinues(k);
    ContinuesSetWpid(k, pid);
    GoodSetWpid(k, pid);
    var k1 := if StoppedChild(k) != NIL then SetWpid(k, pid) else k;
    if k1.table[k1.current].pid == 1 {
      GoodInv(k1);
      CalmFoster(k1, k1.zombies);
      CalmContinues(k1, Foster(k1, k1.zombies));
      ContinuesThen(k, k1, Foster(k1, k1.zombies));
      forall i: Slot
        ensures Foster(k1, k1.zombies).table[i].state == Killed <==> k1.table[i].state == Killed
      {
        CalmEntry(k1, Foster(k1, k1.zombies), i, {});
      }
    }
  }

  lemma ReapEvent(k: KState, w: Slot)
    requires k.table[w].state == Killed
    ensures var k' := Reap(k, w);
      && k'.table[w].state == Unused && k'.table[w].pid == k.table[w].pid && k'.reaped == k.reaped + [k.table[w].pid]
      && OtherSlots(k, k', w) && Ages(k, k')
  {
    var k' := Reap(k, w);
    QueueAges(k, k');
    hide Ages, Without;
    forall j: Slot | j != w
      ensures SameSlot(k.table[j], k'.table[j])
    {
    }
  }

  lemma OtherSlotsAfter(a: KState, b: KState, c: KState, w: Slot)
    requires SlotsSame(a, b) && OtherSlots(b, c, w)
    ensures OtherSlots(a, c, w)
  {
    forall j: Slot | j != w
      ensures SameSlot(a.table[j], c.table[j])
    {
      assert SameSlot(a.table[j], b.table[j]) && SameSlot(b.table[j], c.table[j]);
    }
  }

  lemma ContinuesParts(a: KState, b: KState)
    requires Continues(a, b)
    ensures Ages(a, b) && SlotsSame(a, b)
  {
    hide Ages, SlotsSame;
  }

  lemma SlotsSameEntry(a: KState, b: KState, i: Slot)
    requires SlotsSame(a, b)
    ensures SameSlot(a.table[i], b.table[i]) && b.reaped == a.reaped
  {
  }

  /** A pass of wait frees exactly the slot it reaps. */
  lemma WaitEvent(k: KState, a: Action)
    requires Good(k) && Enabled(k, a) && a.Wait? && a.pid != 0 && -1 <= a.pid
    ensures var k' := WaitStep(k, a.pid, a.noHang, a.untraced, a.resumed);
      match WaitEnding(WaitStart(k, a), a.pid, a.noHang, a.untraced)
      case Reaps(w) =>
        && w != 0 && k.table[w].state == Killed && k'.table[w].state == Unused
        && k'.table[w].pid == k.table[w].pid
        && k'.reaped == k.reaped + [k.table[w].pid] && OtherSlots(k, k', w) && Ages(k, k')
        && (a.pid != -1 ==> k.table[w].pid == a.pid)
      case _ => Continues(k, k')
  {
    hide Good, Inv, Continues, WaitLook, SleepStep, StoppedChild, HasChild, WaitTarget, ZombieFor, Reap, Ages,
      SlotsSame,
      OtherSlots;
    SelfContinues(k);
    GoodSetWpid(k, a.pid);
    ContinuesSetWpid(k, a.pid);
    var k0 := WaitStart(k, a);
    GoodSetWpid(k0, a.pid);
    ContinuesSetWpid(k0, a.pid);
    ContinuesThen(k, k0, SetWpid(k0, a.pid));
    var k1 := WaitLook(k0, a.pid);
    GoodLook(k0, a.pid);
    ContinuesLook(k0, a.pid);
    ContinuesThen(k, k0, k1);
    match WaitEnding(k0, a.pid, a.noHang, a.untraced)
    case Acknowledged(_) =>
    case NoChild =>
    case Reaps(w) =>
      WaitReapsOwnDeadChild(k0, a.pid, a.noHang, a.untraced, w);
      ContinuesParts(k, k1);
      SlotsSameEntry(k, k1, w);
      ReapEvent(k1, w);
      OtherSlotsAfter(k, k1, Reap(k1, w), w);
      AgesThen(k, k1, Reap(k1, w));
    case WouldBlock =>
    case Blocks =>
      ContinuesSleep(k1, STATE_CHANGE);
      ContinuesThen(k, k1, SleepStep(k1, STATE_CHANGE));
  }

  lemma ContinuesStep(k: KState, a: Action)
    requires Good(k) && !a.Fork? && !a.Wait?
    ensures Continues(k, Step(k, a))
  {
    hide Good, TimerStep, SleepStep, ExitStep, ForkStep, ExecStep, WaitStep, Kill, WakeUp, Interrupt,
      ForegroundStep, BackgroundStep, RegisterStep, Continues, Inv, Calm;
    SelfContinues(k);
    if Enabled(k, a) {
      match a
      case Timer => ContinuesTimer(k);
      case Input => GoodInv(k); CalmWakeUp(k, KEYBOARD_INPUT, {}); CalmContinues(k, WakeUp(k, KEYBOARD_INPUT));
      case ControlKey(key) => ContinuesInterrupt(k, key);
      case Sleep(event) => ContinuesSleep(k, event);
      case ExitCall(status) => ContinuesExit(k, status);
      case Exec(found, background, loaded) => ContinuesExec(k, found, background, loaded);
      case KillCall(pid, sig) => ContinuesKill(k, k.table[k.current].pid, pid, sig);
      case Foreground(jobSpec) => ContinuesJobs(k, jobSpec);
      case Background(jobSpec) => ContinuesJobs(k, jobSpec);
      case Register(sig, handler) => ContinuesRegister(k, sig, handler);
    }
  }

  lemma ContinuesInterrupt(k: KState, sig: Signal)
    requires Good(k)
    ensures Continues(k, Interrupt(k, sig))
  {
    hide Good, Kill, Continues;
    SelfContinues(k);
    var f := ForegroundProcess(k);
    if f != NIL {
      ContinuesKill(k, k.table[f].ppid, k.table[f].pid, sig);
    }
  }

  /** The life cycle of a slot: fork alone occupies an unused slot, with a PID never used
      before; wait alone frees one, and only that of a dead process; every other step leaves
      every slot's process in place, and the dead stay dead. */
  lemma SlotLifeCycle(k: KState, a: Action)
    requires Good(k)
    ensures var k' := Step(k, a);
      match EventOf(k, a)
      case NoChange => SlotsSame(k, k')
      case Born(i, complete) =>
        && i != 0 && k.table[i].state == Unused && k'.table[i].state == (if complete then Ready else Init)
        && k'.table[i].pid == k.nextPid && k'.table[i].ppid == k.table[k.current].pid
        && (complete ==> Armed(k'.table[i].handlers))
        && k'.reaped == k.reaped && OtherSlots(k, k', i)
      case Freed(w) =>
        && w != 0 && k.table[w].state == Killed && k'.table[w].state == Unused
        && k'.table[w].pid == k.table[w].pid
        && k'.reaped == k.reaped + [k.table[w].pid] && OtherSlots(k, k', w)
    ensures Ages(k, Step(k, a))
  {
    hide Good, Continues, ForkStep, WaitStep, WaitEnding, Ages, SlotsSame, OtherSlots, Enabled;
    SelfContinues(k);
    ContinuesParts(k, k);
    if !Enabled(k, a) {
    } else if a.Fork? {
      EnabledParts(k, a);
      if FindUnused(k.table, 1) != NIL {
        ForkEvent(k, a.copied);
      } else {
        ForkNothing(k, a.copied);
      }
    } else if a.Wait? {
      EnabledParts(k, a);
      if a.pid != 0 && -1 <= a.pid {
        WaitEvent(k, a);
        if !WaitEnding(WaitStart(k, a), a.pid, a.noHang, a.untraced).Reaps? {
          ContinuesParts(k, Step(k, a));
        }
      } else {
        WaitNothing(k, a);
      }
    } else {
      ContinuesStep(k, a);
      ContinuesParts(k, Step(k, a));
    }
  }

  lemma EnabledParts(k: KState, a: Action)
    requires Enabled(k, a)
    ensures !k.faulted && (a.Fork? || a.Wait? ==> k.current != 0)
  {
  }

  lemma ForkNothing(k: KState, copied: bool)
    requires FindUnused(k.table, 1) == NIL
    ensures ForkStep(k, copied) == k
  {
  }

  lemma WaitNothing(k: KState, a: Action)
    requires Good(k) && Enabled(k, a) && a.Wait? && (a.pid == 0 || a.pid < -1)
    ensures WaitStep(k, a.pid, a.noHang, a.untraced, a.resumed) == k
  {
  }

  // ----- bounded waiting

  /** The number of entries that arrived before the one at index `j` is `j`. */
  lemma AheadIsIndex(k: KState, j: nat)
    requires NoDup(k.ready) && InOrder(k.table, k.ready, k.arrivals) && j < |k.ready|
    ensures |Ahead(k, k.table[k.ready[j]].arrival)| == j
  {
    var a := k.table[k.ready[j]].arrival;
    var prefix := k.ready[..j];
    forall i: Slot
      ensures i in Ahead(k, a) <==> i in prefix
    {
      if i in k.ready {
        var b :| 0 <= b < |k.ready| && k.ready[b] == i;
        if b < j {
          assert prefix[b] == i;
        }
      }
    }
    assert Ahead(k, a) == Elements(prefix);
    assert NoDup(prefix);
    ElementsSize(prefix);
  }

  lemma {:induction false} RunAges(k: KState, acts: seq<Action>)
    requires Good(k)
    ensures Ages(k, Run(k, acts))
    decreases |acts|
  {
    hide Good, Ages, Step, Continues;
    if acts == [] {
      SelfContinues(k);
      ContinuesParts(k, k);
    } else {
      GoodStep(k, acts[0]);
      SlotLifeCycle(k, acts[0]);
      RunAges(Step(k, acts[0]), acts[1..]);
      AgesThen(k, Step(k, acts[0]), Run(k, acts));
    }
  }

  /** Bounded waiting: the process at index `j` of the ready queue does not sit in that place
      in the queue any longer after more than `j` calls of the scheduler, whatever wake-ups,
      forks and signals the run contains: it has run or has otherwise left the queue. */
  lemma BoundedWaiting(k: KState, acts: seq<Action>, j: nat)
    requires Good(k) && j < |k.ready|
    ensures var k' := Run(k, acts); var i := k.ready[j];
      k'.schedules > k.schedules + j ==> !(i in k'.ready && k'.table[i].arrival == k.table[i].arrival)
  {
    hide Run, Ahead;
    RunAges(k, acts);
    GoodInv(k);
    InvParts(k);
    hide Good, Inv;
    AheadIsIndex(k, j);
    ArrivalOld(k, j);
    hide InOrder, NoDup;
  }

  lemma ArrivalOld(k: KState, j: nat)
    requires InOrder(k.table, k.ready, k.arrivals) && j < |k.ready|
    ensures k.table[k.ready[j]].arrival < k.arrivals
  {
  }

  /** One step: an entry that stays in the queue does not move back, and moves forward if the
      step calls the scheduler. */
  lemma NeverOvertaken(k: KState, k': KState, a: Action, j: nat, n: nat)
    requires Good(k) && k' == Step(k, a) && j < |k.ready| && n < |k'.ready|
    requires k'.ready[n] == k.ready[j] && k'.table[k'.ready[n]].arrival == k.table[k.ready[j]].arrival
    ensures n + (k'.schedules - k.schedules) <= j
  {
    hide Step, Ahead;
    SlotLifeCycle(k, a);
    GoodStep(k, a);
    GoodInv(k);
    GoodInv(k');
    InvParts(k);
    InvParts(k');
    hide Good, Inv, OtherSlots, SlotsSame, EventOf;
    AheadIsIndex(k, j);
    AheadIsIndex(k', n);
    ArrivalOld(k, j);
    hide InOrder, NoDup;
  }
}
