/** Running user signal handlers: the frames that check_pending_signals stacks, the assembly
    proxy of user/lib/flib_asm.s, and sigproxy_restore of irq/syscall.c. */
module Trampoline {
  import opened Sequences
  import opened ProcessModel

  const REGISTERS: nat := 31
  const FRAME_BYTES: int := 24
  const SAVE_BYTES: int := 256
  const PROXY_REQUEST: int := 101

  type Registers = x: seq<int> | |x| == REGISTERS witness seq(REGISTERS, _ => 0)

  /** User registers and memory words by address; `calls` is the history of handlers run. */
  datatype Machine = Machine(x: Registers, sp: int, pc: int, mem: map<int, int>, calls: seq<(int, int)>)

  function Load(mem: map<int, int>, a: int): int {
    if a in mem then mem[a] else 0
  }

  /** What a handler leaves in the registers and in memory; it returns with the stack pointer
      it was given. */
  datatype Outcome = Outcome(x: Registers, mem: map<int, int>)

  /** Signal, handler address, registers, stack pointer, memory. */
  type Behaviour = (int, int, Registers, int, map<int, int>) -> Outcome

  /** The handlers do not write between the stack pointer they are given and `top`. */
  ghost predicate Polite(h: Behaviour, top: int) {
    forall i, a, x, sp, mem {:trigger h(i, a, x, sp, mem)} ::
      forall w :: sp <= w < top ==> Load(h(i, a, x, sp, mem).mem, w) == Load(mem, w)
  }

  // ----- the steps

  /** The kernel's frame on the user stack: signal, handler, interrupted address. */
  function StackFrame(m: Machine, proxy: int, i: int, handler: int): Machine {
    var sp := m.sp - FRAME_BYTES;
    m.(sp := sp, pc := proxy, mem := m.mem[sp := i][sp + 8 := handler][sp + 16 := m.pc])
  }

  /** The save area with registers from `k` on filled in. */
  function Saved(x: seq<int>, mem: map<int, int>, base: int, k: nat): map<int, int>
    requires k <= |x|
    decreases |x| - k
  {
    if k == |x| then mem else Saved(x, mem[base + 8 * k := x[k]], base, k + 1)
  }

  function SaveContext(m: Machine): Machine {
    m.(sp := m.sp - SAVE_BYTES, mem := Saved(m.x, m.mem, m.sp - SAVE_BYTES, 0))
  }

  function RestoreContext(m: Machine): Machine {
    m.(x := seq(REGISTERS, k => Load(m.mem, m.sp + 8 * k)), sp := m.sp + SAVE_BYTES)
  }

  /** The branch to the handler, whose address and argument are in x1 and x0. */
  function CallHandler(m: Machine, h: Behaviour, back: int): Machine
  {
    var out := h(m.x[0], m.x[1], m.x[30 := back], m.sp, m.mem);
    m.(x := out.x, mem := out.mem, calls := m.calls + [(m.x[0], m.x[1])])
  }

  function LoadArguments(m: Machine): Machine
  {
    m.(x := m.x[0 := Load(m.mem, m.sp + SAVE_BYTES)][1 := Load(m.mem, m.sp + SAVE_BYTES + 8)])
  }

  /** The saved x1 and x8 go where the frame had the signal and the handler. */
  function KeepTwo(m: Machine): Machine
  {
    var x1, x8 := Load(m.mem, m.sp + 8), Load(m.mem, m.sp + 64);
    m.(x := m.x[1 := x1][8 := x8], mem := m.mem[m.sp + SAVE_BYTES := x1][m.sp + SAVE_BYTES + 8 := x8])
  }

  /** The proxy up to its trap. */
  function Proxy(m: Machine, h: Behaviour, back: int): Machine
  {
    var m1 := CallHandler(LoadArguments(SaveContext(m)), h, back);
    var m2 := RestoreContext(KeepTwo(m1));
    m2.(x := m2.x[8 := PROXY_REQUEST][1 := m2.sp])
  }

  /** sigproxy_restore for a process that was not in a system call. */
  function ProxyRestore(m: Machine): Machine
  {
    m.(x := m.x[1 := Load(m.mem, m.sp)][8 := Load(m.mem, m.sp + 8)], pc := Load(m.mem, m.sp + 16),
      sp := m.sp + FRAME_BYTES)
  }

  function Return(m: Machine, h: Behaviour, back: int): Machine
  {
    ProxyRestore(Proxy(m, h, back))
  }

  // ----- several signals

  /** The kernel stacks one frame for each signal, in order. */
  function StackAll(m: Machine, proxy: int, sigs: seq<(int, int)>): Machine {
    if sigs == [] then m
    else
      var n := |sigs| - 1;
      StackFrame(StackAll(m, proxy, sigs[..n]), proxy, sigs[n].0, sigs[n].1)
  }

  /** Back in user mode the proxy runs once for each frame. */
  function RunHandlers(m: Machine, n: nat, h: Behaviour, back: int): Machine
    decreases n
  {
    if n == 0 then m else RunHandlers(Return(m, h, back), n - 1, h, back)
  }

  /** The user-handled signals among the pending ones, in ascending order. */
  function Caught(pending: set<Signal>, handlers: Handlers, n: nat): seq<(int, int)>
    requires n <= TOTAL_SIGNALS
    decreases TOTAL_SIGNALS - n
  {
    if n == TOTAL_SIGNALS then []
    else if n in pending && handlers[n].UserHandler? then [(n, handlers[n].address)] + Caught(pending, handlers, n + 1)
    else Caught(pending, handlers, n + 1)
  }

  // ----- proofs

  /** Same registers, stack pointer and program counter, and the same words up to `top`. */
  ghost predicate Agree(m: Machine, m': Machine, top: int) {
    && m'.x == m.x && m'.sp == m.sp && m'.pc == m.pc
    && forall w :: m.sp <= w < top ==> Load(m'.mem, w) == Load(m.mem, w)
  }

  /** Each register is in its place in the save area, and nothing else has changed. */
  lemma {:induction false} SavedWords(x: seq<int>, mem: map<int, int>, base: int, k: nat, w: int)
    requires k <= |x|
    ensures Load(Saved(x, mem, base, k), w) ==
      if exists j :: k <= j < |x| && w == base + 8 * j then x[(w - base) / 8] else Load(mem, w)
    decreases |x| - k
  {
    if k < |x| {
      SavedWords(x, mem[base + 8 * k := x[k]], base, k + 1, w);
      if w == base + 8 * k {
        assert (w - base) / 8 == k;
        assert !exists j :: k + 1 <= j < |x| && w == base + 8 * j;
      } else if exists j :: k <= j < |x| && w == base + 8 * j {
        var j :| k <= j < |x| && w == base + 8 * j;
        assert k + 1 <= j;
      }
    }
  }

  lemma SavedAt(x: seq<int>, mem: map<int, int>, base: int, j: nat)
    requires j < |x|
    ensures Load(Saved(x, mem, base, 0), base + 8 * j) == x[j]
  {
    SavedWords(x, mem, base, 0, base + 8 * j);
  }

  lemma SavedOutside(x: seq<int>, mem: map<int, int>, base: int, w: int)
    requires base + 8 * |x| <= w
    ensures Load(Saved(x, mem, base, 0), w) == Load(mem, w)
  {
    SavedWords(x, mem, base, 0, w);
  }

  /** The memory that a handler started from a frame finds. */
  lemma HandlerEntry(m: Machine, m': Machine, proxy: int, i: int, a: int, top: int)
    requires m.sp <= top && Agree(StackFrame(m, proxy, i, a), m', top)
    ensures var e := LoadArguments(SaveContext(m'));
      && e.x[0] == i && e.x[1] == a && e.sp == m.sp - FRAME_BYTES - SAVE_BYTES && e.calls == m'.calls
      && (forall j :: 0 <= j < REGISTERS ==> Load(e.mem, e.sp + 8 * j) == m.x[j])
      && Load(e.mem, m.sp - 8) == m.pc
      && (forall w :: m.sp <= w < top ==> Load(e.mem, w) == Load(m.mem, w))
  {
    var f := StackFrame(m, proxy, i, a);
    var base := m'.sp - SAVE_BYTES;
    forall j | 0 <= j < REGISTERS
      ensures Load(SaveContext(m').mem, base + 8 * j) == m.x[j]
    {
      SavedAt(m'.x, m'.mem, base, j);
    }
    forall w | m'.sp <= w < top
      ensures Load(SaveContext(m').mem, w) == Load(f.mem, w)
    {
      SavedOutside(m'.x, m'.mem, base, w);
    }
    hide Saved;
  }

  /** After the handler the proxy and the kernel put everything back. */
  lemma HandlerExit(m: Machine, c: Machine, top: int)
    requires m.sp <= top
    requires c.sp == m.sp - FRAME_BYTES - SAVE_BYTES
    requires forall j :: 0 <= j < REGISTERS ==> Load(c.mem, c.sp + 8 * j) == m.x[j]
    requires Load(c.mem, m.sp - 8) == m.pc
    requires forall w :: m.sp <= w < top ==> Load(c.mem, w) == Load(m.mem, w)
    ensures var m2 := RestoreContext(KeepTwo(c));
      var r := ProxyRestore(m2.(x := m2.x[8 := PROXY_REQUEST][1 := m2.sp]));
      Agree(m, r, top) && r.calls == c.calls
  {
    var m1 := KeepTwo(c);
    var m2 := RestoreContext(m1);
    assert Load(c.mem, c.sp + 8 * 1) == m.x[1] && Load(c.mem, c.sp + 8 * 8) == m.x[8];
    forall j | 0 <= j < REGISTERS
      ensures m2.x[j] == m.x[j]
    {
      assert Load(m1.mem, c.sp + 8 * j) == Load(c.mem, c.sp + 8 * j);
    }
    assert m2.x == m.x;
    var r := ProxyRestore(m2.(x := m2.x[8 := PROXY_REQUEST][1 := m2.sp]));
    assert r.x == m.x;
  }

  /** One frame and one run of the proxy cancel out. */
  lemma ReturnUndoesFrame(m: Machine, m': Machine, proxy: int, i: int, a: int, h: Behaviour, back: int, top: int)
    requires m.sp <= top && Polite(h, top)
    requires Agree(StackFrame(m, proxy, i, a), m', top)
    ensures var r := Return(m', h, back);
      Agree(m, r, top) && r.calls == m'.calls + [(i, a)]
  {
    HandlerEntry(m, m', proxy, i, a, top);
    hide SaveContext, RestoreContext, KeepTwo, ProxyRestore, StackFrame;
    var e := LoadArguments(SaveContext(m'));
    var c := CallHandler(e, h, back);
    var out := h(e.x[0], e.x[1], e.x[30 := back], e.sp, e.mem);
    assert forall w :: e.sp <= w < top ==> Load(out.mem, w) == Load(e.mem, w);
    HandlerExit(m, c, top);
  }

  /** A process interrupted in user mode gets any signals it catches: each handler runs exactly
      once, the last one stacked first, and then registers, stack pointer, program counter and
      the stack are as they were. */
  lemma {:induction false} HandlersAreTransparent(m: Machine, m': Machine, proxy: int, sigs: seq<(int, int)>,
                                                  h: Behaviour, back: int, top: int)
    requires m.sp <= top && Polite(h, top)
    requires Agree(StackAll(m, proxy, sigs), m', top)
    ensures var r := RunHandlers(m', |sigs|, h, back);
      Agree(m, r, top) && r.calls == m'.calls + Backwards(sigs)
    decreases |sigs|
  {
    hide StackFrame, Return, Agree, Polite;
    StackRegisters(m, proxy, sigs);
    if sigs == [] {
      AgreeParts(m, m', top);
      assert m'.calls + [] == m'.calls;
    } else {
      var n := |sigs| - 1;
      var below := StackAll(m, proxy, sigs[..n]);
      StackRegisters(m, proxy, sigs[..n]);
      ReturnUndoesFrame(below, m', proxy, sigs[n].0, sigs[n].1, h, back, top);
      AgreeParts(StackAll(m, proxy, sigs), m', top);
      var m1 := Return(m', h, back);
      AgreeParts(below, m1, top);
      HandlersAreTransparent(m, m1, proxy, sigs[..n], h, back, top);
      assert m'.calls + [sigs[n]] + Backwards(sigs[..n]) == m'.calls + Backwards(sigs);
    }
  }

  lemma AgreeParts(m: Machine, m': Machine, top: int)
    requires Agree(m, m', top)
    ensures m'.x == m.x && m'.sp == m.sp && m'.pc == m.pc
  {
  }

  lemma {:induction false} StackRegisters(m: Machine, proxy: int, sigs: seq<(int, int)>)
    ensures var r := StackAll(m, proxy, sigs);
      r.x == m.x && r.sp == m.sp - FRAME_BYTES * |sigs| && r.calls == m.calls
  {
    if sigs != [] {
      StackRegisters(m, proxy, sigs[..|sigs|-1]);
    }
  }

  // ----- the pending signals of a process

  /** The caught signals are the pending ones with a user handler, each exactly once. */
  lemma {:induction false} CaughtOnce(pending: set<Signal>, handlers: Handlers, n: nat)
    requires n <= TOTAL_SIGNALS
    ensures var c := Caught(pending, handlers, n);
      && (forall i: Signal :: n <= i && i in pending && handlers[i].UserHandler? ==> (i, handlers[i].address) in c)
      && (forall k :: 0 <= k < |c| ==>
            n <= c[k].0 < TOTAL_SIGNALS && c[k].0 in pending && handlers[c[k].0] == UserHandler(c[k].1))
      && (forall j, k :: 0 <= j < k < |c| ==> c[j].0 < c[k].0)
    decreases TOTAL_SIGNALS - n
  {
    if n < TOTAL_SIGNALS {
      CaughtOnce(pending, handlers, n + 1);
    }
  }

  /** The same for the pending signals of a process: stacked in ascending order, run in
      descending order. */
  lemma DeliveryIsTransparent(m: Machine, proxy: int, pending: set<Signal>, handlers: Handlers,
                              h: Behaviour, back: int, top: int)
    requires m.sp <= top && Polite(h, top)
    ensures var sigs := Caught(pending, handlers, 0);
      var r := RunHandlers(StackAll(m, proxy, sigs), |sigs|, h, back);
      Agree(m, r, top) && r.calls == m.calls + Backwards(sigs)
  {
    hide StackAll, RunHandlers, Polite, Backwards;
    var sigs := Caught(pending, handlers, 0);
    StackRegisters(m, proxy, sigs);
    HandlersAreTransparent(m, StackAll(m, proxy, sigs), proxy, sigs, h, back, top);
  }

  lemma {:induction false} StackSnoc(m: Machine, proxy: int, sigs: seq<(int, int)>, last: (int, int))
    ensures StackAll(m, proxy, sigs + [last]) == StackFrame(StackAll(m, proxy, sigs), proxy, last.0, last.1)
  {
    assert (sigs + [last])[..|sigs|] == sigs;
  }

  /** The handlers after the caught signals have been reset to their defaults. */
  function ResetCaught(handlers: Handlers, caught: set<Signal>): Handlers {
    seq(TOTAL_SIGNALS, j requires 0 <= j < TOTAL_SIGNALS => if j in caught then DefaultHandlers()[j] else handlers[j])
  }

  /** The kernel's side: when every pending signal is caught (and is not SIGCONT), the check for
      signals leaves none pending and changes nothing but the handlers it resets. */
  lemma {:induction false} CaughtSignalsClear(k: KState, i: Slot, n: nat)
    requires n <= TOTAL_SIGNALS && !k.faulted && Alive(k.table[i]) && k.table[i].state != Stopped
    requires forall s :: s in k.table[i].signals ==> n <= s && s != SIGCONT && k.table[i].handlers[s].UserHandler?
    ensures CheckFrom(k, i, n) ==
      Put(k, i, k.table[i].(signals := {}, handlers := ResetCaught(k.table[i].handlers, k.table[i].signals)))
    decreases TOTAL_SIGNALS - n
  {
    var p := k.table[i];
    if n == TOTAL_SIGNALS {
      assert p.signals == {};
      assert ResetCaught(p.handlers, {}) == p.handlers;
      assert k.table[i := p] == k.table;
    } else if n !in p.signals {
      CaughtSignalsClear(k, i, n + 1);
    } else {
      var q := p.(signals := p.signals - {n}, handlers := p.handlers[n := DefaultHandlers()[n]]);
      TakeCaught(k, i, n);
      CaughtSignalsClear(Put(k, i, q), i, n + 1);
      assert ResetCaught(q.handlers, q.signals) == ResetCaught(p.handlers, p.signals);
      var last := p.(signals := {}, handlers := ResetCaught(p.handlers, p.signals));
      assert k.table[i := q][i := last] == k.table[i := last];
    }
  }

  lemma TakeCaught(k: KState, i: Slot, n: Signal)
    requires !k.faulted && n in k.table[i].signals && n != SIGCONT && k.table[i].handlers[n].UserHandler?
    ensures TakeSignal(k, i, n) ==
      Put(k, i, k.table[i].(signals := k.table[i].signals - {n},
        handlers := k.table[i].handlers[n := DefaultHandlers()[n]]))
  {
    hide DefaultHandlers;
    var h := k.table[i].handlers[n := DefaultHandlers()[n]];
    var q := k.table[i].(handlers := h);
    assert k.table[i := q][i := q.(signals := k.table[i].signals - {n})] ==
      k.table[i := q.(signals := k.table[i].signals - {n})];
  }

  // ----- the machine

  /** A process in user mode: its registers are saved and restored in place. */
  class UserThread {
    const x: array<int>
    var sp: int
    var pc: int
    var mem: map<int, int>
    ghost var calls: seq<(int, int)>

    ghost predicate Valid()
      reads this
    {
      x.Length == REGISTERS
    }

    ghost function View(): Machine
      requires Valid()
      reads this, x
    {
      Machine(x[..], sp, pc, mem, calls)
    }

    method SaveRegisters()
      requires Valid()
      modifies this`sp, this`mem
      ensures View() == SaveContext(old(View()))
    {
      sp := sp - SAVE_BYTES;
      var k := 0;
      while k < REGISTERS
        invariant 0 <= k <= REGISTERS && sp == old(sp) - SAVE_BYTES
        invariant Saved(x[..], mem, sp, k) == Saved(x[..], old(mem), sp, 0)
      {
        mem := mem[sp + 8 * k := x[k]];
        k := k + 1;
      }
    }

    method RestoreRegisters()
      requires Valid()
      modifies this`sp, x
      ensures View() == RestoreContext(old(View()))
    {
      var k := 0;
      while k < REGISTERS
        invariant 0 <= k <= REGISTERS && sp == old(sp)
        invariant forall j :: 0 <= j < k ==> x[j] == Load(mem, sp + 8 * j)
      {
        x[k] := Load(mem, sp + 8 * k);
        k := k + 1;
      }
      sp := sp + SAVE_BYTES;
      assert x[..] == RestoreContext(old(View())).x;
    }

    /** The custom handler: any code that keeps the stack pointer. */
    method Branch(h: Behaviour, back: int)
      requires Valid()
      modifies this`mem, this`calls, x
      ensures View() == CallHandler(old(View()), h, back)
    {
      var i, a := x[0], x[1];
      x[30] := back;
      var out := h(i, a, x[..], sp, mem);
      forall k | 0 <= k < REGISTERS {
        x[k] := out.x[k];
      }
      mem := out.mem;
      calls := calls + [(i, a)];
      assert x[..] == out.x;
    }

    /** x0 and x1 from the kernel's frame, above the save area. */
    method LoadFrame()
      requires Valid()
      modifies x
      ensures View() == LoadArguments(old(View()))
    {
      x[0] := Load(mem, sp + SAVE_BYTES);
      x[1] := Load(mem, sp + SAVE_BYTES + 8);
    }

    /** The saved x1 and x8 into the kernel's frame. */
    method KeepOverwritten()
      requires Valid()
      modifies this`mem, x
      ensures View() == KeepTwo(old(View()))
    {
      x[1] := Load(mem, sp + 8);
      x[8] := Load(mem, sp + 64);
      mem := mem[sp + SAVE_BYTES := x[1]][sp + SAVE_BYTES + 8 := x[8]];
    }

    method HandlerProxy(h: Behaviour, back: int)
      requires Valid()
      modifies this`sp, this`mem, this`calls, x
      ensures View() == Proxy(old(View()), h, back)
    {
      hide SaveContext, RestoreContext, CallHandler, LoadArguments, KeepTwo;
      SaveRegisters();
      LoadFrame();
      Branch(h, back);
      KeepOverwritten();
      RestoreRegisters();
      x[8] := PROXY_REQUEST;
      x[1] := sp;
    }

    method SigproxyRestore()
      requires Valid()
      modifies this`sp, this`pc, x
      ensures View() == ProxyRestore(old(View()))
    {
      x[1] := Load(mem, sp);
      x[8] := Load(mem, sp + 8);
      pc := Load(mem, sp + 16);
      sp := sp + FRAME_BYTES;
    }

    /** The kernel redirects the process to the proxy once for each caught signal. */
    method StackSignals(proxy: int, pending: set<Signal>, handlers: Handlers)
      requires Valid()
      modifies this`sp, this`pc, this`mem
      ensures View() == StackAll(old(View()), proxy, Caught(pending, handlers, 0))
    {
      hide StackAll, StackFrame, Caught;
      ghost var start := View();
      ghost var done: seq<(int, int)> := [];
      StackNone(start, proxy);
      var i := 0;
      while i < TOTAL_SIGNALS
        invariant 0 <= i <= TOTAL_SIGNALS
        invariant done + Caught(pending, handlers, i) == Caught(pending, handlers, 0)
        invariant View() == StackAll(start, proxy, done)
      {
        CaughtNext(pending, handlers, i, done);
        if i in pending && handlers[i].UserHandler? {
          ghost var next := (i, handlers[i].address);
          StackSnoc(start, proxy, done, next);
          done := done + [next];
          PushFrame(proxy, i, handlers[i].address);
        }
        i := i + 1;
      }
      CaughtNone(pending, handlers, done);
    }

    method PushFrame(proxy: int, i: int, handler: int)
      requires Valid()
      modifies this`sp, this`pc, this`mem
      ensures View() == StackFrame(old(View()), proxy, i, handler)
    {
      var interrupted := pc;
      pc := proxy;
      sp := sp - FRAME_BYTES;
      mem := mem[sp := i][sp + 8 := handler][sp + 16 := interrupted];
    }
  }

  lemma CaughtNext(pending: set<Signal>, handlers: Handlers, i: Signal, done: seq<(int, int)>)
    ensures done + Caught(pending, handlers, i) ==
      (if i in pending && handlers[i].UserHandler? then done + [(i, handlers[i].address)] else done) +
      Caught(pending, handlers, i + 1)
  {
    if i in pending && handlers[i].UserHandler? {
      var rest := Caught(pending, handlers, i + 1);
      assert done + ([(i, handlers[i].address)] + rest) == done + [(i, handlers[i].address)] + rest;
    }
  }

  lemma CaughtNone(pending: set<Signal>, handlers: Handlers, done: seq<(int, int)>)
    ensures done + Caught(pending, handlers, TOTAL_SIGNALS) == done
  {
  }

  lemma StackNone(m: Machine, proxy: int)
    ensures StackAll(m, proxy, []) == m
  {
  }
}
