/** register_handler, fork and exec: which handlers a process has afterwards. */
module HandlerSteps {
  import opened ProcessModel
  import opened ProcessInvariant
  import opened KernelSteps
  import opened ProcessCalls
  import opened KernelRuns
  import opened Trampoline

  /** Only the entry of `i` changes. */
  predicate OnlyEntry(k: KState, k': KState, i: Slot) {
    k' == k.(table := k'.table) && forall j: Slot :: j != i ==> k'.table[j] == k.table[j]
  }

  /** signal(), for every signal and handler: one that is in range and can be caught gets the handler
      that is given; all other handlers, fields and slots stay. Any other call changes nothing. */
  lemma RegisterExact(k: KState, sig: int, handler: Handler)
    requires Good(k) && Enabled(k, Register(sig, handler))
    ensures var k' := Step(k, Register(sig, handler)); var p, q := k.table[k.current], k'.table[k.current];
      if 1 <= sig <= 30 && sig != SIGKILL && sig != SIGSTOP then
        && OnlyEntry(k, k', k.current) && q == p.(handlers := q.handlers) && q.handlers[sig] == handler
        && (forall s: Signal :: s != sig ==> q.handlers[s] == p.handlers[s])
      else k' == k
  {
    hide Good;
  }

  /** A signal that is pending after its user handler has been registered is among those whose
      handlers run in user mode, with that address. */
  lemma RegisteredIsCaught(k: KState, sig: int, address: int, pending: set<Signal>)
    requires Good(k) && Enabled(k, Register(sig, UserHandler(address)))
    requires 1 <= sig <= 30 && sig != SIGKILL && sig != SIGSTOP && sig in pending
    ensures var k' := Step(k, Register(sig, UserHandler(address)));
      (sig, address) in Caught(pending, k'.table[k.current].handlers, 0)
  {
    hide Good, Caught, Step;
    RegisterExact(k, sig, UserHandler(address));
    CaughtOnce(pending, Step(k, Register(sig, UserHandler(address))).table[k.current].handlers, 0);
  }

  /** The dispositions of a new program: eight signals are handled by the kernel, the others dropped. */
  predicate Fresh(h: Handlers) {
    && (forall s: Signal :: !h[s].UserHandler?)
    && (forall s: Signal :: h[s].KernelHandler? <==>
          (|| s == SIGHUP || s == SIGINT || s == SIGABRT || s == SIGKILL
           || s == SIGTERM || s == SIGCONT || s == SIGSTOP || s == SIGTSTP))
  }

  lemma DefaultsAreFresh()
    ensures Fresh(DefaultHandlers())
  {
  }

  /** Another slot holds the foreground under the PID of the caller. */
  predicate SharesPid(k: KState) {
    k.foreground != NIL && k.table[k.foreground].pid == k.table[k.current].pid
  }

  /** What an argument "&" does: the caller is a daemon, has given up the foreground, and has the next
      job number of a living parent. */
  predicate Detached(k: KState, k': KState) {
    var i, parent := k.current, ParentOf(k, k.current);
    && k'.table[i].daemon && k'.foreground != i
    && (k.foreground != i && !SharesPid(k) ==> k'.foreground == k.foreground)
    && (parent != NIL && parent != i && k.table[parent].state != Killed ==>
          && k'.table[parent] == k.table[parent].(jobs := k.table[parent].jobs + 1)
          && k'.table[i].jobSpec == k.table[parent].jobs + 1)
    && (forall j: Slot :: j != i && j != parent ==> k'.table[j] == k.table[j])
  }

  lemma DetachExact(k: KState)
    ensures Detached(k, Detach(k)) && Detach(k).current == k.current
  {
    hide FindPid;
  }

  /** exec of a program that loads: no handler of the old program is left and no signal is pending;
      an argument "&" detaches it, otherwise nothing else changes. */
  lemma ExecExact(k: KState, background: bool)
    requires Good(k) && Enabled(k, Exec(true, background, true))
    ensures var k' := Step(k, Exec(true, background, true)); var i := k.current; var p, q := k.table[i], k'.table[i];
      && Fresh(q.handlers) && q.signals == {}
      && (if background then Detached(k, k')
          else OnlyEntry(k, k', i) && q == p.(handlers := q.handlers, signals := {}))
  {
    hide Good, DefaultHandlers, Fresh, Detach, Detached;
    DefaultsAreFresh();
    DetachExact(k);
    DetachedStays(k, Detach(k), Step(k, Exec(true, background, true)));
  }

  lemma DetachedStays(k: KState, k1: KState, k': KState)
    requires Detached(k, k1)
    ensures var q := k1.table[k.current].(signals := {}, handlers := DefaultHandlers());
      k' == k1.(table := k1.table[k.current := q]) ==> Detached(k, k')
  {
    hide FindPid, DefaultHandlers;
  }

  /** A child is a new entry: the next PID, the caller as parent, no signals, no job number, no
      daemon; with the dispositions of a new program if its memory could be copied, else half-made. */
  lemma ForkedExact(k: KState, copied: bool)
    requires Good(k) && Enabled(k, Fork(copied)) && FindUnused(k.table, 1) != NIL
    ensures var k' := Step(k, Fork(copied)); var i := FindUnused(k.table, 1); var q := k'.table[i];
      && (forall j: Slot :: j != i ==> k'.table[j] == k.table[j])
      && q.pid == k.nextPid && k'.nextPid == k.nextPid + 1 && q.ppid == k.table[k.current].pid
      && q.signals == {} && !q.daemon && q.jobs == 0 && q.jobSpec == 0 && q.event == NONE && q.wpid == 0
      && q.status == 0
      && (if copied then q.state == Ready && Fresh(q.handlers) && k'.ready == k.ready + [i]
          else q.state == Init && k'.ready == k.ready)
      && k'.waiting == k.waiting && k'.suspended == k.suspended && k'.zombies == k.zombies
  {
    hide Good, DefaultHandlers, Fresh, FindUnused;
    DefaultsAreFresh();
    var i := FindUnused(k.table, 1);
    NotCurrent(k, i);
    ConceiveNewborn(k, i);
    hide Conceive;
  }

  lemma NotCurrent(k: KState, i: Slot)
    requires Good(k) && !k.faulted && k.table[i].state == Unused
    ensures i != k.current
  {
    hide Inv;
  }
}
