/** The branch of the SIGCONT handler that pauses the foreground process, on the links of the
    lists: when the four lists survive it. */
module PauseLinks {
  import opened Sequences
  import opened ProcessModel
  import opened ProcessInvariant
  import opened WakeupProofs
  import opened PendingProofs
  import opened IntrusiveLists

  datatype Ends = Ends(head: Link, tail: Link)

  datatype Lists = Lists(ready: Ends, waiting: Ends, suspended: Ends, zombies: Ends)

  ghost predicate Runs(e: Ends, next: Links, q: seq<Slot>) {
    Linked(e.head, e.tail, next, q)
  }

  /** The lists run through the queues of `k`. */
  ghost predicate Carries(l: Lists, next: Links, k: KState) {
    && Runs(l.ready, next, k.ready) && Runs(l.waiting, next, k.waiting)
    && Runs(l.suspended, next, k.suspended) && Runs(l.zombies, next, k.zombies)
  }

  /** push_back on the ends of a list and on the links. A list with a head has a tail. */
  function PushEnds(e: Ends, node: Slot): Ends {
    if e.head == NIL then Ends(node, node) else Ends(e.head, node)
  }

  function PushNext(e: Ends, next: Links, node: Slot): Links {
    if e.head == NIL || e.tail == NIL then next[node := NIL] else next[e.tail := node][node := NIL]
  }

  /** The branch up to its push: the foreground process is marked asleep and off the ready queue. */
  function Marked(k: KState): KState
    requires k.foreground != NIL
  {
    var f: Slot := k.foreground;
    var k1 := Put(k, f, k.table[f].(state := Asleep, event := FG_PAUSED));
    k1.(ready := Without(k1.ready, f))
  }

  /** Same data, other queues. */
  predicate Requeued(k: KState, k': KState) {
    k' == k.(ready := k'.ready, waiting := k'.waiting, suspended := k'.suspended, zombies := k'.zombies)
  }

  /** Slots that hold no process that was ever ready. */
  function Unborn(t: Table): set<Slot> {
    set i: Slot | 0 <= i < TABLE_SIZE && (t[i].state == Unused || t[i].state == Init)
  }

  /** The lists run through queues that hold exactly the processes in their state, and nobody
      has come alive. */
  ghost predicate Survives(k: KState, l: Lists, next: Links, k': KState)
    requires k.foreground != NIL
  {
    Requeued(Marked(k), k') && Carries(l, next, k') && Queues(k', {}) && Unborn(k'.table) == Unborn(k.table)
  }

  // ----- links determine queues

  /** Two lists with the same head agree as far as their links do. */
  lemma {:induction false} SamePrefix(e: Ends, next: Links, q: seq<Slot>, e': Ends, next': Links, q': seq<Slot>, j: nat)
    requires Runs(e, next, q) && Runs(e', next', q') && e'.head == e.head && j < |q|
    requires forall n :: 0 <= n < j ==> next'[q[n]] == next[q[n]]
    ensures j < |q'| && q'[j] == q[j]
    decreases j
  {
    hide NoDup;
    if j > 0 {
      SamePrefix(e, next, q, e', next', q', j - 1);
      assert next[q[j-1]] == q[j];
      assert next'[q'[j-1]] == q[j];
    }
  }

  /** The links determine the queue. */
  lemma SameQueue(e: Ends, next: Links, q: seq<Slot>, q': seq<Slot>)
    requires Runs(e, next, q) && Runs(e, next, q')
    ensures q' == q
  {
    forall j | 0 <= j < |q|
      ensures j < |q'| && q'[j] == q[j]
    {
      SamePrefix(e, next, q, e, next, q', j);
    }
    forall j | 0 <= j < |q'|
      ensures j < |q| && q[j] == q'[j]
    {
      SamePrefix(e, next, q', e, next, q, j);
    }
  }

  /** A slot stays on a list whose links before it have not changed. */
  lemma StaysOn(e: Ends, next: Links, q: seq<Slot>, next': Links, q': seq<Slot>, f: Slot)
    requires Runs(e, next, q) && Runs(e, next', q') && f in q
    requires forall i: Slot :: i in q && i != f ==> next'[i] == next[i]
    ensures f in q'
  {
    var j :| 0 <= j < |q| && q[j] == f;
    assert forall n :: 0 <= n < j ==> q[n] != f;
    hide NoDup, Linked;
    SamePrefix(e, next, q, e, next', q', j);
  }

  lemma PushRuns(e: Ends, next: Links, q: seq<Slot>, node: Slot)
    requires Runs(e, next, q)
    ensures Runs(PushEnds(e, node), PushNext(e, next, node), Pushed(q, node))
  {
    LinkedStart(e.head, e.tail, next, q);
    LinkedTail(e.head, e.tail, next, q);
    hide Linked;
    LinkedPush(e.head, e.tail, next, q, node, PushNext(e, next, node));
  }

  /** Only the last link of the list and that of the node change. */
  lemma PushChanges(e: Ends, next: Links, q: seq<Slot>, node: Slot, i: Slot)
    requires Runs(e, next, q) && i != node && i !in q
    ensures PushNext(e, next, node)[i] == next[i]
  {
    LinkedStart(e.head, e.tail, next, q);
    LinkedTail(e.head, e.tail, next, q);
    hide Linked;
  }

  // ----- the push keeps the lists

  /** The other lists do not run through the slots that the push touches. */
  lemma OtherStays(l: Lists, next: Links, k: KState, f: Slot, e: Ends, q: seq<Slot>)
    requires Runs(l.waiting, next, k.waiting) && Runs(e, next, q) && f !in q
    requires forall i :: i in q ==> i !in k.waiting
    ensures Runs(e, PushNext(l.waiting, next, f), q)
  {
    forall i | i in q
      ensures PushNext(l.waiting, next, f)[i] == next[i]
    {
      PushChanges(l.waiting, next, k.waiting, f, i);
    }
    hide Linked;
    LinkedFrame(e.head, e.tail, next, PushNext(l.waiting, next, f), q);
  }

  lemma SafeSurvives(k: KState, l: Lists, next: Links)
    requires Inv(k, {}) && k.foreground != NIL && PauseIsSafe(k) && Carries(l, next, Marked(k))
    ensures Survives(k, l.(waiting := PushEnds(l.waiting, k.foreground)), PushNext(l.waiting, next, k.foreground),
      PauseForeground(k))
  {
    hide Linked, Pushed;
    var f: Slot := k.foreground;
    var m := Marked(k);
    SoundPause(k);
    SoundInv(k, PauseForeground(k), {});
    Apart(k, f);
    PausedQueues(k);
    PushRuns(l.waiting, next, m.waiting, f);
    OtherStays(l, next, m, f, l.ready, m.ready);
    OtherStays(l, next, m, f, l.suspended, m.suspended);
    OtherStays(l, next, m, f, l.zombies, m.zombies);
    hide Runs, Inv, Queues;
    SameUnborn(k, f);
  }

  /** A foreground process that can be paused is, once marked, on no list but the wait list. */
  lemma Apart(k: KState, f: Slot)
    requires Inv(k, {}) && k.foreground == f && PauseIsSafe(k)
    ensures var m := Marked(k);
      && f !in m.ready && f !in m.suspended && f !in m.zombies
      && (forall i :: i in m.ready || i in m.suspended || i in m.zombies ==> i !in m.waiting)
      && (k.table[f].state == Ready || k.table[f].state == Asleep)
  {
    WithoutReady(k, f);
    OneQueue(k);
    PausableState(k, f);
    hide Inv, Without;
  }

  /** Nobody is on two lists. */
  lemma OneQueue(k: KState)
    requires Inv(k, {})
    ensures forall i :: i in k.ready || i in k.suspended || i in k.zombies ==> i !in k.waiting
    ensures forall i :: i in k.ready ==> i !in k.suspended && i !in k.zombies
  {
    hide NoDup, Data, InOrder;
  }

  lemma PausableState(k: KState, f: Slot)
    requires Inv(k, {}) && k.foreground == f && PauseIsSafe(k)
    ensures k.table[f].state == Ready || k.table[f].state == Asleep
    ensures f in k.ready || f in k.waiting
  {
    hide NoDup, Data, InOrder;
  }

  lemma PausedQueues(k: KState)
    requires k.foreground != NIL
    ensures var m, k' := Marked(k), PauseForeground(k); var f: Slot := k.foreground;
      Requeued(m, k') && k' == m.(waiting := Pushed(m.waiting, f))
  {
    hide Pushed, Without;
    var m := Marked(k);
    assert Requeued(m, PauseForeground(k));
  }

  lemma SameUnborn(k: KState, f: Slot)
    requires k.foreground == f && (k.table[f].state == Ready || k.table[f].state == Asleep)
    ensures Unborn(PauseForeground(k).table) == Unborn(k.table)
  {
    hide Pushed, Without;
  }

  // ----- the push breaks the lists

  /** A sleeper that is not the last one cuts off those behind it. */
  lemma CutsOff(k: KState, f: Slot, k': KState)
    requires Queues(k, {}) && k.foreground == f && f in k.waiting && !IsLast(k.waiting, f)
    requires k'.table == Marked(k).table && k'.waiting == Pushed(k.waiting, f)
    ensures !Queues(k', {})
  {
    var j :| 0 <= j < |k.waiting| && k.waiting[j] == f;
    PushedAgain(k.waiting, j);
    var last := k.waiting[|k.waiting| - 1];
    assert last != f && last in k.waiting && last !in k.waiting[..j + 1];
    assert k.table[last].state == Asleep;
    hide NoDup, Pushed;
    assert k'.table[last].state == Asleep;
  }

  /** A process that is on none of the two queues is asleep on the wait list afterwards, and
      still on the list where it was, or it was never ready at all. */
  lemma Intrudes(k: KState, f: Slot, k': KState)
    requires Queues(k, {}) && k.foreground == f && f !in k.ready && f !in k.waiting && k.table[f].state != Running
    requires k'.table == Marked(k).table && k'.waiting == Pushed(k.waiting, f)
    requires (f in k.suspended ==> f in k'.suspended) && (f in k.zombies ==> f in k'.zombies)
    ensures !(Queues(k', {}) && Unborn(k'.table) == Unborn(k.table))
  {
    PushedNew(k.waiting, f);
    hide Pushed;
    assert k'.table[f].state == Asleep && k'.waiting[|k.waiting|] == f;
    assert f !in Unborn(k'.table);
    if f != 0 && (k.table[f].state == Unused || k.table[f].state == Init) {
      assert f in Unborn(k.table);
    }
  }

  lemma UnsafeBreaks(k: KState, l: Lists, next: Links, k': KState)
    requires Inv(k, {}) && k.foreground != NIL && k.table[k.foreground].state != Running && !PauseIsSafe(k)
    requires Carries(l, next, Marked(k))
    ensures !Survives(k, l.(waiting := PushEnds(l.waiting, k.foreground)), PushNext(l.waiting, next, k.foreground), k')
  {
    var f: Slot := k.foreground;
    var l', next' := l.(waiting := PushEnds(l.waiting, f)), PushNext(l.waiting, next, f);
    if Survives(k, l', next', k') {
      hide Linked, Pushed;
      PushRuns(l.waiting, next, k.waiting, f);
      SameQueue(l'.waiting, next', Pushed(k.waiting, f), k'.waiting);
      OneQueue(k);
      if f in k.waiting {
        CutsOff(k, f, k');
      } else {
        if f in k.suspended {
          Still(l, next, k, f, l.suspended, k.suspended, k'.suspended);
        }
        if f in k.zombies {
          Still(l, next, k, f, l.zombies, k.zombies, k'.zombies);
        }
        hide Runs;
        Intrudes(k, f, k');
      }
    }
  }

  lemma Still(l: Lists, next: Links, k: KState, f: Slot, e: Ends, q: seq<Slot>, q': seq<Slot>)
    requires Runs(l.waiting, next, k.waiting) && Runs(e, next, q) && f in q
    requires forall i :: i in q ==> i !in k.waiting
    requires Runs(e, PushNext(l.waiting, next, f), q')
    ensures f in q'
  {
    hide Runs;
    forall i: Slot | i in q && i != f
      ensures PushNext(l.waiting, next, f)[i] == next[i]
    {
      PushChanges(l.waiting, next, k.waiting, f, i);
    }
    StaysOn(e, next, q, PushNext(l.waiting, next, f), q', f);
  }

  /** Pausing the foreground process, on the links: with nobody running, the four lists still
      run through queues with exactly the processes in their state, and no slot has come alive,
      if and only if the process is on the ready queue or is the last on the wait list. `l` and
      `next` are the lists after the process has been taken off the ready queue, if it was there. */
  lemma PauseKeepsListsIff(k: KState, l: Lists, next: Links)
    requires Inv(k, {}) && k.foreground != NIL && k.table[k.foreground].state != Running
    requires Carries(l, next, Marked(k))
    ensures (exists k' :: Survives(k, l.(waiting := PushEnds(l.waiting, k.foreground)),
      PushNext(l.waiting, next, k.foreground), k'))
      <==> PauseIsSafe(k)
  {
    hide Inv, Survives, Carries, Marked;
    if PauseIsSafe(k) {
      SafeSurvives(k, l, next);
    } else {
      forall k'
        ensures !Survives(k, l.(waiting := PushEnds(l.waiting, k.foreground)),
          PushNext(l.waiting, next, k.foreground), k')
      {
        UnsafeBreaks(k, l, next, k');
      }
    }
  }
}
