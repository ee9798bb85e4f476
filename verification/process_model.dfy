/** The process table, its four queues and every operation on them up to (and not
    including) the scheduler: process/process.c and process/signal.c on values.
    A pointer to a table slot is the slot's number; NULL is NIL. */
module ProcessModel {
  import opened Sequences

  const TABLE_SIZE := 100
  const TOTAL_SIGNALS := 32
  const NIL := -1

  const SIGHUP := 1
  const SIGINT := 2
  const SIGABRT := 6
  const SIGKILL := 9
  const SIGTERM := 15
  const SIGCHLD := 17
  const SIGCONT := 18
  const SIGSTOP := 19
  const SIGTSTP := 20

  const NONE := -255
  const SLEEP_SYSCALL := -254
  const STATE_CHANGE := -253
  const KEYBOARD_INPUT := -252
  const DAEMON_INPUT := -251
  const FG_PAUSED := -250

  type Slot = i: int | 0 <= i < TABLE_SIZE
  type Signal = s: int | 0 <= s < TOTAL_SIGNALS
  /** A process pointer: a slot or NIL. */
  type Link = i: int | NIL <= i < TABLE_SIZE

  datatype State = Unused | Init | Running | Ready | Asleep | Stopped | Killed

  /** NULL (the signal is dropped), the kernel's own handler, or a user-mode address. */
  datatype Handler = NoHandler | KernelHandler | UserHandler(address: int)
  type Handlers = h: seq<Handler> | |h| == TOTAL_SIGNALS
    witness seq(TOTAL_SIGNALS, _ => NoHandler)

  /** A table entry. `arrival` is a history variable: the stamp of the process's latest
      entry into the ready queue. */
  datatype Process = Process(
    state: State, pid: int, ppid: int, wpid: int, status: bv32, daemon: bool,
    jobs: nat, jobSpec: nat, event: int, signals: set<Signal>, handlers: Handlers,
    arrival: nat)

  type Table = t: seq<Process> | |t| == TABLE_SIZE
    witness seq(TABLE_SIZE, _ => Blank())

  /** The kernel's process state. `faulted` marks a run that reached one of the branches
      that break the queue discipline; the state is frozen there. `arrivals`, `schedules`
      and `reaped` are history variables: the next ready-queue stamp, the number of
      completed calls of the scheduler and the PIDs reaped so far. */
  datatype KState = KState(
    table: Table,
    ready: seq<Slot>, waiting: seq<Slot>, suspended: seq<Slot>, zombies: seq<Slot>,
    current: Slot, foreground: Link, nextPid: int, shutdown: bool,
    faulted: bool, arrivals: nat, schedules: nat, reaped: seq<int>)

  /** A slot after memset. */
  function Blank(): Process {
    Process(Unused, 0, 0, 0, 0, false, 0, 0, 0, {}, seq(TOTAL_SIGNALS, _ => NoHandler), 0)
  }

  function DefaultHandlers(): Handlers {
    seq(TOTAL_SIGNALS, i => if i in {SIGHUP, SIGINT, SIGABRT, SIGTERM, SIGKILL, SIGSTOP, SIGTSTP, SIGCONT}
                            then KernelHandler else NoHandler)
  }

  function BlankTable(): Table {
    seq(TABLE_SIZE, _ => Blank())
  }

  function InitProcess(): Process {
    Blank().(state := Ready, event := NONE, pid := 1, daemon := true, handlers := DefaultHandlers())
  }

  /** The idle process runs and init is ready. */
  function Boot(): KState {
    KState(BlankTable()[0 := Blank().(state := Running, daemon := true)][1 := InitProcess()],
           [1], [], [], [], 0, NIL, 2, false, false, 1, 0, [])
  }

  predicate Occupied(p: Process) {
    p.state != Unused
  }

  predicate Alive(p: Process) {
    p.state != Unused && p.state != Killed
  }

  // ----- table and queue primitives

  function Put(k: KState, i: Slot, p: Process): KState {
    k.(table := k.table[i := p])
  }

  /** READY and at the back of the ready queue, with a fresh stamp. */
  function MakeReady(k: KState, i: Slot): KState {
    k.(table := k.table[i := k.table[i].(state := Ready, arrival := k.arrivals)],
       ready := k.ready + [i],
       arrivals := k.arrivals + 1)
  }

  /** SLEEP and at the back of the wait list. */
  function MakeAsleep(k: KState, i: Slot): KState {
    k.(table := k.table[i := k.table[i].(state := Asleep)], waiting := k.waiting + [i])
  }

  /** Off the ready queue or, failing that, off the wait list. */
  function LeaveActive(k: KState, i: Slot): KState {
    if i in k.ready then k.(ready := Without(k.ready, i))
    else if i in k.waiting then k.(waiting := Without(k.waiting, i))
    else k
  }

  function FindPid(t: Table, pid: int, i: nat): (r: Link)
    requires 1 <= i <= TABLE_SIZE
    ensures r != NIL ==> i <= r && Occupied(t[r]) && t[r].pid == pid
    ensures r != NIL ==> forall j :: i <= j < r ==> !(Occupied(t[j]) && t[j].pid == pid)
    ensures r == NIL ==> forall j :: i <= j < TABLE_SIZE ==> !(Occupied(t[j]) && t[j].pid == pid)
    decreases TABLE_SIZE - i
  {
    if i == TABLE_SIZE then NIL
    else if Occupied(t[i]) && t[i].pid == pid then i
    else FindPid(t, pid, i + 1)
  }

  function GetProcess(k: KState, pid: int): Link {
    FindPid(k.table, pid, 1)
  }

  function FindJobFrom(t: Table, jobSpec: int, ppid: int, i: nat): (r: Link)
    requires 1 <= i <= TABLE_SIZE
    ensures r != NIL ==> i <= r && Occupied(t[r]) && t[r].ppid == ppid && t[r].jobSpec == jobSpec
    ensures r == NIL ==> forall j :: i <= j < TABLE_SIZE ==>
              !(Occupied(t[j]) && t[j].ppid == ppid && t[j].jobSpec == jobSpec)
    decreases TABLE_SIZE - i
  {
    if i == TABLE_SIZE then NIL
    else if Occupied(t[i]) && t[i].ppid == ppid && t[i].jobSpec == jobSpec then i
    else FindJobFrom(t, jobSpec, ppid, i + 1)
  }

  function FindJob(k: KState, jobSpec: int, ppid: int): Link {
    if jobSpec <= 0 then NIL else FindJobFrom(k.table, jobSpec, ppid, 1)
  }

  // ----- wake_up

  /** The position of the first slot of `q` that waits on `event`, or |q|. */
  function FirstWaiter(t: Table, q: seq<Slot>, event: int): (j: nat)
    ensures j <= |q|
    ensures j < |q| ==> t[q[j]].event == event
    ensures forall n :: 0 <= n < j ==> t[q[n]].event != event
  {
    if q == [] then 0
    else if t[q[0]].event == event then 0
    else
      var j := FirstWaiter(t, q[1..], event);
      assert forall n :: 1 <= n < j + 1 ==> q[n] == q[1..][n-1];
      j + 1
  }

  function WakeUp(k: KState, event: int): KState
    decreases |k.waiting|
  {
    var j := FirstWaiter(k.table, k.waiting, event);
    if j == |k.waiting| then k
    else
      var i := k.waiting[j];
      var k1 := k.(waiting := Without(k.waiting, i));
      WakeUp(MakeReady(Put(k1, i, k1.table[i].(event := NONE)), i), event)
  }

  // ----- kill

  /** A pending continue signal is discarded by a stop signal and vice versa. */
  function Post(signals: set<Signal>, sig: Signal): set<Signal> {
    (if sig == SIGSTOP || sig == SIGTSTP then signals - {SIGCONT}
     else if sig == SIGCONT then signals - {SIGSTOP, SIGTSTP}
     else signals) + {sig}
  }

  /** Post a signal and pull a sleeping target out of the wait list. */
  function Deliver(k: KState, i: Slot, sig: Signal): KState {
    var k1 := Put(k, i, k.table[i].(signals := Post(k.table[i].signals, sig)));
    if k1.table[i].state == Asleep then MakeReady(k1.(waiting := Without(k1.waiting, i)), i)
    else k1
  }

  function KillGroupFrom(k: KState, sender: int, sig: Signal, i: nat): KState
    requires 2 <= i <= TABLE_SIZE
    decreases TABLE_SIZE - i
  {
    if i == TABLE_SIZE then k
    else
      var p := k.table[i];
      KillGroupFrom(if p.pid != sender && Alive(p) && p.ppid == sender then Deliver(k, i, sig) else k,
                    sender, sig, i + 1)
  }

  /** Signal every living child of the process with PID `sender`. */
  function KillGroup(k: KState, sender: int, sig: Signal): KState {
    KillGroupFrom(k, sender, sig, 2)
  }

  function KillAllFrom(k: KState, sender: int, sig: Signal, i: nat): KState
    requires 2 <= i <= TABLE_SIZE
    decreases TABLE_SIZE - i
  {
    if i == TABLE_SIZE then k
    else
      var p := k.table[i];
      KillAllFrom(if p.pid != sender && Alive(p) then Deliver(k, i, sig) else k, sender, sig, i + 1)
  }

  /** The broadcast, for every signal but SIGHUP; SIGTERM also marks init and the idle process. */
  function KillAll(k: KState, sender: int, sig: Signal): KState {
    var k1 := KillAllFrom(k, sender, sig, 2);
    if sig == SIGTERM then
      var k2 := Put(k1, 1, k1.table[1].(signals := k1.table[1].signals + {SIGTERM}));
      Put(k2, 0, k2.table[0].(signals := k2.table[0].signals + {SIGTERM}))
    else k1
  }

  function Kill(k: KState, sender: int, pid: int, sig: int): KState {
    if sig < 0 || sig >= TOTAL_SIGNALS then k
    else if pid == -1 then KillAll(k, sender, sig)
    else if pid == 0 then KillGroup(k, sender, sig)
    else
      var target := GetProcess(k, pid);
      if target == NIL then k else Deliver(k, target, sig)
  }

  // ----- exit

  function SwitchParentFrom(k: KState, parent: Slot, old_: int, new_: int, transferJobs: bool, i: nat): KState
    requires 1 <= i <= TABLE_SIZE
    decreases TABLE_SIZE - i
  {
    if i == TABLE_SIZE then k
    else if Occupied(k.table[i]) && k.table[i].ppid == old_ then
      var k1 := Put(k, i, k.table[i].(ppid := new_));
      SwitchParentFrom(
        if transferJobs && k1.table[i].jobSpec != 0 && k1.table[i].state != Stopped then NewJob(k1, parent, i) else k1,
        parent, old_, new_, transferJobs, i + 1)
    else SwitchParentFrom(k, parent, old_, new_, transferJobs, i + 1)
  }

  /** The next job number of `parent` becomes the job specification of `i`. */
  function NewJob(k: KState, parent: Slot, i: Slot): KState {
    var k1 := Put(k, parent, k.table[parent].(jobs := k.table[parent].jobs + 1));
    Put(k1, i, k1.table[i].(jobSpec := k1.table[parent].jobs))
  }

  function SwitchParent(k: KState, old_: int, new_: int, transferJobs: bool): KState {
    var parent := GetProcess(k, new_);
    if parent == NIL || k.table[parent].state == Killed then k
    else SwitchParentFrom(k, parent, old_, new_, transferJobs, 1)
  }

  /** Leave SIGCHLD and a status with a living parent. */
  function Notify(k: KState, parent: Link, status: bv32): KState {
    if parent != NIL && k.table[parent].state != Killed then
      Put(k, parent, k.table[parent].(signals := k.table[parent].signals + {SIGCHLD}, status := status))
    else k
  }

  /** A process that holds the foreground hands it to a non-daemon parent, else to nobody. */
  function YieldForeground(k: KState, i: Slot, parent: Link): KState {
    if k.foreground != NIL && k.table[k.foreground].pid == k.table[i].pid then
      k.(foreground := if parent != NIL && !k.table[parent].daemon then parent else NIL)
    else k
  }

  /** End one stopped job of a dying process. */
  function EndJob(k: KState, j: Slot): KState {
    var k1 := Put(k, j, k.table[j].(state := Killed, event := k.table[j].pid));
    var k2 := KillGroup(k1, k1.table[j].pid, SIGTERM);
    k2.(suspended := Without(k2.suspended, j), zombies := k2.zombies + [j])
  }

  function EndJobs(k: KState, pid: int, jobs: seq<Slot>): KState
    decreases |jobs|
  {
    if jobs == [] then k
    else EndJobs(if k.table[jobs[0]].ppid == pid && k.table[jobs[0]].state == Stopped then EndJob(k, jobs[0]) else k,
                 pid, jobs[1..])
  }

  function ParentOf(k: KState, i: Slot): Link {
    GetProcess(k, k.table[i].ppid)
  }

  /** Give up the foreground and wake the processes that this one had paused. */
  function GiveWay(k: KState, i: Slot, parent: Link): KState {
    var k1 := YieldForeground(k, i, parent);
    if !k1.table[i].daemon then WakeUp(k1, FG_PAUSED) else k1
  }

  /** The dead process joins the zombies and its parent's wait is unblocked. */
  function Bury(k: KState, i: Slot): KState {
    WakeUp(k.(zombies := k.zombies + [i]), STATE_CHANGE)
  }

  function MarkDead(k: KState, i: Slot, status: bv32): KState {
    Put(k, i, k.table[i].(status := status, state := Killed, event := k.table[i].pid))
  }

  /** Tell the parent, or become a child of init if there is none. */
  function Announce(k: KState, i: Slot, parent: Link): KState {
    if parent != NIL && k.table[parent].state != Killed then Notify(k, parent, k.table[i].status)
    else Put(k, i, k.table[i].(ppid := 1))
  }

  /** exit without its final call of the scheduler, for a process on no queue. */
  function Exit(k: KState, i: Slot, status: bv32): KState {
    if !Alive(k.table[i]) then k
    else
      var pid := k.table[i].pid;
      var k1 := MarkDead(k, i, status);
      var parent := ParentOf(k1, i);
      var k2 := Announce(k1, i, parent);
      var k3 := EndJobs(k2, pid, k2.suspended);
      Bury(GiveWay(SwitchParent(k3, pid, 1, true), i, parent), i)
  }

  // ----- the kernel's own signal handlers

  function SignalBits(sig: Signal): bv32 {
    (sig as bv32) & 0x7f
  }

  /** SIGHUP, SIGINT, SIGABRT and SIGTERM. */
  function Terminate(k: KState, i: Slot, sig: Signal): KState {
    Exit(LeaveActive(k, i), i, 0x100 | (sig as bv32))
  }

  /** The victim of SIGKILL leaves its queue and gives up the foreground. */
  function Withdraw(k: KState, i: Slot, parent: Link): KState {
    if k.table[i].state == Stopped then k.(suspended := Without(k.suspended, i))
    else GiveWay(LeaveActive(k, i), i, parent)
  }

  /** Its children go to init, the group is told to die, and the victim is marked dead. */
  function Slay(k: KState, i: Slot, pid: int): KState {
    var k1 := KillGroup(SwitchParent(k, pid, 1, false), pid, SIGKILL);
    Put(k1, i, k1.table[i].(state := Killed, event := pid, daemon := false))
  }

  function KillHandler(k: KState, i: Slot): KState {
    var pid := k.table[i].pid;
    if pid == 0 || pid == 1 then k
    else
      var status := 0x100 | SignalBits(SIGKILL);
      var k1 := Put(k, i, k.table[i].(status := status));
      var parent := ParentOf(k1, i);
      Bury(Slay(Withdraw(Notify(k1, parent, status), i, parent), i, pid), i)
  }

  /** Tell a living parent that its child has stopped; a first stop makes the child a job. */
  function ReportStop(k: KState, i: Slot, parent: Link): KState {
    if parent != NIL && k.table[parent].state != Killed then
      var n := Notify(k, parent, k.table[i].status);
      var w := Put(n, parent, n.table[parent].(wpid := n.table[i].pid));
      if w.table[i].jobSpec == 0 then NewJob(w, parent, i) else w
    else k
  }

  /** STOPPED and on the suspended list. */
  function Suspend(k: KState, i: Slot): KState {
    var k1 := Put(k, i, k.table[i].(state := Stopped));
    WakeUp(k1.(suspended := k1.suspended + [i]), STATE_CHANGE)
  }

  function StoppedStatus(status: bv32): bv32 {
    status | 0x7f
  }

  function StopHandler(k: KState, i: Slot): KState {
    var pid := k.table[i].pid;
    if pid == 0 || pid == 1 || k.table[i].state == Stopped then k
    else
      var k1 := LeaveActive(k, i);
      var k2 := Put(k1, i, k1.table[i].(status := StoppedStatus(k1.table[i].status)));
      var parent := ParentOf(k2, i);
      Suspend(GiveWay(ReportStop(k2, i, parent), i, parent), i)
  }

  /** A stopped process goes back where its event says it was. */
  function Resume(k: KState, i: Slot): KState {
    var k1 := k.(suspended := Without(k.suspended, i));
    if k1.table[i].event == NONE then MakeReady(k1, i)
    else
      var event := if !k1.table[i].daemon && k1.table[i].event == DAEMON_INPUT then KEYBOARD_INPUT
                   else k1.table[i].event;
      MakeAsleep(Put(k1, i, k1.table[i].(event := event)), i)
  }

  /** Put the foreground process to sleep, wherever it is. If it is on the wait list already
      it is pushed a second time. */
  function PauseForeground(k: KState): KState
    requires k.foreground != NIL
  {
    var f: Slot := k.foreground;
    var k1 := Put(k, f, k.table[f].(state := Asleep, event := FG_PAUSED));
    var k2 := if f in k1.ready then k1.(ready := Without(k1.ready, f)) else k1;
    k2.(waiting := Pushed(k2.waiting, f))
  }

  predicate IsLast(q: seq<Slot>, i: Slot) {
    q != [] && q[|q| - 1] == i
  }

  /** Pausing is sound exactly when the foreground process can be taken off the ready queue, or
      is the last sleeper, whom a second push leaves where it is. */
  predicate PauseIsSafe(k: KState) {
    k.foreground != NIL ==> k.foreground in k.ready || IsLast(k.waiting, k.foreground)
  }

  function ContinuedStatus(status: bv32): bv32 {
    (status & !0x7f) | SignalBits(SIGCONT)
  }

  /** The rest of the SIGCONT handler once the process is resumed. */
  function FinishContinue(k: KState, i: Slot): KState {
    var k1 := Put(k, i, k.table[i].(status := ContinuedStatus(k.table[i].status)));
    var parent := ParentOf(k1, i);
    if parent != NIL && k1.table[parent].state != Killed then
      Put(k1, parent, k1.table[parent].(signals := k1.table[parent].signals + {SIGCHLD}))
    else k1
  }

  function ContinueHandler(k: KState, i: Slot): KState {
    var pid := k.table[i].pid;
    if pid == 0 || pid == 1 || k.table[i].state != Stopped then k
    else
      var k1 := Resume(k, i);
      if k1.table[i].daemon then FinishContinue(k1, i)
      else if !PauseIsSafe(k1) then k.(faulted := true)
      else
        var k2 := if k1.foreground != NIL then PauseForeground(k1) else k1;
        FinishContinue(k2.(foreground := i), i)
  }

  function DefaultHandler(k: KState, i: Slot, sig: Signal): KState {
    if sig == SIGHUP || sig == SIGINT || sig == SIGABRT || sig == SIGTERM then Terminate(k, i, sig)
    else if sig == SIGKILL then KillHandler(k, i)
    else if sig == SIGSTOP || sig == SIGTSTP then StopHandler(k, i)
    else if sig == SIGCONT then ContinueHandler(k, i)
    else k
  }

  // ----- check_pending_signals

  /** What a pending signal does before its bit is cleared. */
  function Handle(k: KState, i: Slot, sig: Signal): KState {
    match k.table[i].handlers[sig]
    case NoHandler => k
    case KernelHandler => DefaultHandler(k, i, sig)
    case UserHandler(_) =>
      var k1 := if sig == SIGCONT then ContinueHandler(k, i) else k;
      if k1.faulted then k1
      else Put(k1, i, k1.table[i].(handlers := k1.table[i].handlers[sig := DefaultHandlers()[sig]]))
  }

  function Toggle(s: set<Signal>, sig: Signal): set<Signal> {
    if sig in s then s - {sig} else s + {sig}
  }

  /** Back to sleep after a signal that interrupted a system call, unless user code handles it. */
  function SleepAgain(k: KState, i: Slot, userHandled: bool): KState {
    if i in k.ready && k.table[i].event != NONE && !userHandled then
      MakeAsleep(k.(ready := Without(k.ready, i)), i)
    else k
  }

  /** One pending signal: handle it, clear its bit, restore an interrupted sleep. */
  function TakeSignal(k: KState, i: Slot, sig: Signal): KState {
    var k1 := Handle(k, i, sig);
    if k1.faulted then k1
    else
      var k2 := Put(k1, i, k1.table[i].(signals := Toggle(k1.table[i].signals, sig)));
      SleepAgain(k2, i, k.table[i].handlers[sig].UserHandler?)
  }

  function CheckFrom(k: KState, i: Slot, n: nat): KState
    requires n <= TOTAL_SIGNALS
    decreases TOTAL_SIGNALS - n
  {
    if n == TOTAL_SIGNALS || k.faulted || !Alive(k.table[i]) then k
    else if n !in k.table[i].signals then CheckFrom(k, i, n + 1)
    else if k.table[i].state == Stopped && n != SIGKILL && n != SIGCONT then CheckFrom(k, i, n + 1)
    else CheckFrom(TakeSignal(k, i, n), i, n + 1)
  }

  function CheckPending(k: KState, i: Slot): KState {
    CheckFrom(k, i, 0)
  }
}
