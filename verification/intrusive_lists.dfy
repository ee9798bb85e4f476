/** The intrusive singly linked lists of lib/lib.c. A node is a table slot; all lists share
    one `next` link per slot, so a slot can be on one list at a time. */
module IntrusiveLists {
  import opened Sequences
  import opened ProcessModel

  class List {
    var head: Link
    var tail: Link

    constructor ()
      ensures head == NIL && tail == NIL
    {
      head, tail := NIL, NIL;
    }
  }

  type Links = s: seq<Link> | |s| == TABLE_SIZE witness seq(TABLE_SIZE, _ => NIL)

  /** From `head` the links run through `q` and end at `tail`. The tail of an empty list is
      arbitrary: remove_evt leaves the last node there when it empties the list. */
  ghost predicate Linked(head: Link, tail: Link, next: Links, q: seq<Slot>) {
    && NoDup(q)
    && (q == [] ==> head == NIL)
    && (q != [] ==> head == q[0] && tail == q[|q|-1] && next[tail] == NIL)
    && (forall j :: 0 <= j < |q| - 1 ==> next[q[j]] == q[j+1])
  }

  lemma LinkedFrame(head: Link, tail: Link, next: Links, next': Links, q: seq<Slot>)
    requires Linked(head, tail, next, q) && forall i :: i in q ==> next'[i] == next[i]
    ensures Linked(head, tail, next', q)
  {
    assert q != [] ==> tail in q;
  }

  lemma LinkedRest(head: Link, tail: Link, next: Links, q: seq<Slot>)
    requires Linked(head, tail, next, q) && |q| > 1
    ensures Linked(next[head], tail, next, q[1..])
  {
    assert forall j :: 0 <= j < |q| - 1 ==> q[1..][j] == q[j+1];
  }

  lemma LinkedAppend(head: Link, tail: Link, next: Links, q: seq<Slot>, node: Slot, next': Links)
    requires Linked(head, tail, next, q) && node !in q
    requires q != [] ==> next' == next[tail := node][node := NIL]
    requires q == [] ==> next' == next[node := NIL]
    ensures Linked(if q == [] then node else head, node, next', q + [node])
  {
    NoDupAppend(q, node);
    if q != [] {
      assert forall j :: 0 <= j < |q| - 1 ==> q[j] != q[|q|-1];
    }
  }

  /** A node that is on the list already: its link is cut, and the list ends there. */
  lemma LinkedAgain(head: Link, tail: Link, next: Links, q: seq<Slot>, j: nat)
    requires Linked(head, tail, next, q) && j < |q|
    ensures Linked(head, q[j], next[tail := q[j]][q[j] := NIL], q[..j + 1])
  {
    var next' := next[tail := q[j]][q[j] := NIL];
    forall n | 0 <= n < j
      ensures next'[q[n]] == q[n+1]
    {
      assert q[n] != q[j] && q[n] != q[|q|-1];
    }
    assert NoDup(q[..j + 1]);
    hide NoDup;
    LinkedIntro(head, q[j], next', q[..j + 1]);
  }

  /** A push, wherever the node was in the list before. */
  lemma LinkedPush(head: Link, tail: Link, next: Links, q: seq<Slot>, node: Slot, next': Links)
    requires Linked(head, tail, next, q)
    requires q != [] ==> next' == next[tail := node][node := NIL]
    requires q == [] ==> next' == next[node := NIL]
    ensures Linked(if q == [] then node else head, node, next', Pushed(q, node))
  {
    if node in q {
      var j :| 0 <= j < |q| && q[j] == node;
      LinkedAgain(head, tail, next, q, j);
      LinkedDistinct(head, tail, next, q);
      PushedAgain(q, j);
    } else {
      PushedNew(q, node);
      LinkedAppend(head, tail, next, q, node, next');
    }
    hide Linked, NoDup;
  }

  lemma LinkedDistinct(head: Link, tail: Link, next: Links, q: seq<Slot>)
    requires Linked(head, tail, next, q)
    ensures NoDup(q)
  {
  }

  /** Unlinking position `j`. */
  lemma LinkedWithout(head: Link, tail: Link, next: Links, q: seq<Slot>, j: nat, next': Links)
    requires Linked(head, tail, next, q) && 0 < j < |q|
    requires forall i: Slot :: i != q[j-1] && i != q[j] ==> next'[i] == next[i]
    requires next'[q[j-1]] == if j == |q| - 1 then NIL else next[q[j]]
    ensures Linked(head, if j == |q| - 1 then q[j-1] else tail, next', Without(q, q[j]))
  {
    hide Linked, NoDup, Without;
    LinkedParts(head, tail, next, q);
    WithoutAt(q, j);
    WithoutNoDup(q, q[j]);
    var r := q[..j] + q[j+1..];
    forall n | 0 <= n < |r| - 1
      ensures next'[r[n]] == r[n+1]
    {
      SkippedLink(next, q, j, next', n);
    }
    if j < |q| - 1 {
      Different(q, |q| - 1, j);
      assert r[|r|-1] == q[|q|-1];
    } else {
      assert r[|r|-1] == q[j-1];
    }
    assert r[0] == q[0];
    LinkedIntro(head, if j == |q| - 1 then q[j-1] else tail, next', r);
  }

  lemma LinkedParts(head: Link, tail: Link, next: Links, q: seq<Slot>)
    requires Linked(head, tail, next, q) && q != []
    ensures NoDup(q) && head == q[0] && tail == q[|q|-1] && next[tail] == NIL
    ensures forall j :: 0 <= j < |q| - 1 ==> next[q[j]] == q[j+1]
  {
    hide NoDup;
  }

  lemma LinkedIntro(head: Link, tail: Link, next: Links, q: seq<Slot>)
    requires NoDup(q) && q != [] && head == q[0] && tail == q[|q|-1] && next[tail] == NIL
    requires forall j :: 0 <= j < |q| - 1 ==> next[q[j]] == q[j+1]
    ensures Linked(head, tail, next, q)
  {
    hide NoDup;
  }

  lemma Different(q: seq<Slot>, n: nat, j: nat)
    requires NoDup(q) && n < |q| && 0 < j < |q| && n != j && n != j - 1
    ensures q[n] != q[j-1] && q[n] != q[j]
  {
  }

  /** One link of the list without position `j`. */
  lemma SkippedLink(next: Links, q: seq<Slot>, j: nat, next': Links, n: nat)
    requires NoDup(q) && 0 < j < |q| && n < |q| - 2
    requires forall m :: 0 <= m < |q| - 1 ==> next[q[m]] == q[m+1]
    requires forall i: Slot :: i != q[j-1] && i != q[j] ==> next'[i] == next[i]
    requires next'[q[j-1]] == if j == |q| - 1 then NIL else next[q[j]]
    ensures var r := q[..j] + q[j+1..]; next'[r[n]] == r[n+1]
  {
    hide NoDup;
    var r := q[..j] + q[j+1..];
    if n < j - 1 {
      assert r[n] == q[n] && r[n+1] == q[n+1];
      Different(q, n, j);
    } else if n == j - 1 {
      assert r[n] == q[j-1] && r[n+1] == q[j+1];
    } else {
      assert r[n] == q[n+1] && r[n+1] == q[n+2];
      Different(q, n + 1, j);
    }
  }

  lemma LinkedStart(head: Link, tail: Link, next: Links, q: seq<Slot>)
    requires Linked(head, tail, next, q)
    ensures head == if q == [] then NIL else q[0]
  {
    hide NoDup;
  }

  lemma LinkedTail(head: Link, tail: Link, next: Links, q: seq<Slot>)
    requires Linked(head, tail, next, q)
    ensures q != [] ==> tail == q[|q|-1]
  {
    hide NoDup;
  }

  /** The tail marks the last node, and a link leads on from every other. */
  lemma TailIs(head: Link, tail: Link, next: Links, q: seq<Slot>, j: nat)
    requires Linked(head, tail, next, q) && j < |q|
    ensures tail == q[j] <==> j == |q| - 1
    ensures next[q[j]] == if j + 1 < |q| then q[j+1] else NIL
  {
  }

  /** Taking the head off by moving the head pointer. */
  lemma LinkedUnhead(head: Link, tail: Link, next: Links, q: seq<Slot>)
    requires Linked(head, tail, next, q) && q != []
    ensures if |q| == 1 then Linked(NIL, NIL, next, Without(q, q[0]))
      else Linked(next[head], tail, next, Without(q, q[0]))
  {
    assert Without(q, q[0]) == q[1..];
    if |q| > 1 {
      LinkedRest(head, tail, next, q);
    }
  }

  lemma NotThere(q: seq<Slot>, node: Slot)
    requires forall n :: 0 <= n < |q| ==> q[n] != node
    ensures node !in q && Without(q, node) == q
  {
  }

  /** Unlinking the head and clearing its link; the tail goes stale when the list empties. */
  lemma LinkedBehead(head: Link, tail: Link, next: Links, q: seq<Slot>)
    requires Linked(head, tail, next, q) && q != []
    ensures Linked(next[head], tail, next[head := NIL], Without(q, q[0]))
  {
    assert Without(q, q[0]) == q[1..];
    if |q| > 1 {
      LinkedRest(head, tail, next, q);
      assert head !in q[1..];
      LinkedFrame(next[head], tail, next, next[head := NIL], q[1..]);
    }
  }

  lemma FirstWaiterFrom(t: Table, q: seq<Slot>, p: nat, event: int, j: nat)
    requires p <= j <= |q| && (j < |q| ==> t[q[j]].event == event)
    requires forall n :: p <= n < j ==> t[q[n]].event != event
    ensures p + FirstWaiter(t, q[p..], event) == j
  {
    var r := q[p..];
    assert forall n :: 0 <= n < |r| ==> r[n] == q[p+n];
  }

  method PushBack(l: List, next: array<Link>, node: Slot, ghost q: seq<Slot>)
    requires next.Length == TABLE_SIZE && Linked(l.head, l.tail, next[..], q)
    modifies l, next
    ensures Linked(l.head, l.tail, next[..], Pushed(q, node))
    ensures forall i: Slot :: i !in q && i != node ==> next[i] == old(next[i])
  {
    hide Linked;
    LinkedStart(l.head, l.tail, next[..], q);
    LinkedTail(l.head, l.tail, next[..], q);
    ghost var links := next[..];
    if l.head == NIL {
      l.head := node;
      l.tail := node;
      next[node] := NIL;
      LinkedPush(old(l.head), old(l.tail), links, q, node, next[..]);
      return;
    }
    next[l.tail] := node;
    next[node] := NIL;
    l.tail := node;
    LinkedPush(old(l.head), old(l.tail), links, q, node, next[..]);
  }

  method PopFront(l: List, next: array<Link>, ghost q: seq<Slot>) returns (node: Link)
    requires next.Length == TABLE_SIZE && Linked(l.head, l.tail, next[..], q)
    modifies l
    ensures node == if q == [] then NIL else q[0]
    ensures Linked(l.head, l.tail, next[..], if q == [] then [] else q[1..])
  {
    node := NIL;
    if l.head != NIL {
      node := l.head;
      if l.tail == node {
        assert |q| == 1;
        l.head := NIL;
        l.tail := NIL;
      } else {
        LinkedRest(l.head, l.tail, next[..], q);
        l.head := next[node];
      }
    }
  }

  /** The node if it was on the list, else NIL. */
  method Remove(l: List, next: array<Link>, node: Slot, ghost q: seq<Slot>) returns (found: Link)
    requires next.Length == TABLE_SIZE && Linked(l.head, l.tail, next[..], q)
    modifies l, next
    ensures found == if node in q then node else NIL
    ensures Linked(l.head, l.tail, next[..], Without(q, node))
    ensures forall i: Slot :: i !in q ==> next[i] == old(next[i])
  {
    hide Linked, NoDup, Without;
    var curr, prev := l.head, NIL;
    ghost var j := 0;
    LinkedStart(l.head, l.tail, next[..], q);
    while curr != NIL
      invariant 0 <= j <= |q| && curr == (if j < |q| then q[j] else NIL)
      invariant prev == (if j > 0 then q[j-1] else NIL)
      invariant forall n :: 0 <= n < j ==> q[n] != node
      invariant Linked(l.head, l.tail, next[..], q) && next[..] == old(next[..])
      invariant l.head == old(l.head) && l.tail == old(l.tail)
      decreases |q| - j
    {
      TailIs(l.head, l.tail, next[..], q, j);
      if node == curr {
        if prev == NIL {
          LinkedUnhead(l.head, l.tail, next[..], q);
          if l.tail == curr {
            l.head := NIL;
            l.tail := NIL;
          } else {
            l.head := next[curr];
          }
        } else if l.tail == curr {
          l.tail := prev;
          next[prev] := NIL;
          LinkedWithout(old(l.head), old(l.tail), old(next[..]), q, j, next[..]);
        } else {
          next[prev] := next[curr];
          LinkedWithout(old(l.head), old(l.tail), old(next[..]), q, j, next[..]);
        }
        return curr;
      }
      prev := curr;
      curr := next[curr];
      j := j + 1;
    }
    NotThere(q, node);
    return curr;
  }

  method Contains(l: List, next: array<Link>, node: Slot, ghost q: seq<Slot>) returns (found: bool)
    requires next.Length == TABLE_SIZE && Linked(l.head, l.tail, next[..], q)
    ensures found <==> node in q
  {
    var curr := l.head;
    ghost var j := 0;
    while curr != NIL
      invariant 0 <= j <= |q| && curr == (if j < |q| then q[j] else NIL)
      invariant forall n :: 0 <= n < j ==> q[n] != node
      decreases |q| - j
    {
      if node == curr {
        return true;
      }
      curr := next[curr];
      j := j + 1;
    }
    return false;
  }

  /** The branch of remove_evt that has found its node: unlink it and clear its link. A
      predecessor is needed unless the node is the head. */
  method Detach(l: List, next: array<Link>, node: Slot, prev: Link, ghost q: seq<Slot>, ghost j: nat)
    requires next.Length == TABLE_SIZE && Linked(l.head, l.tail, next[..], q)
    requires j < |q| && q[j] == node && (j > 0 ==> prev == q[j-1])
    modifies l, next
    ensures Linked(l.head, l.tail, next[..], Without(q, node)) && next[node] == NIL
    ensures forall i: Slot :: i !in q ==> next[i] == old(next[i])
  {
    hide Without;
    if l.head == node {
      LinkedBehead(l.head, l.tail, next[..], q);
      l.head := next[node];
      next[node] := NIL;
    } else {
      next[prev] := next[node];
      next[node] := NIL;
      if l.tail == node {
        l.tail := prev;
      }
      LinkedWithout(old(l.head), old(l.tail), old(next[..]), q, j, next[..]);
    }
  }

  /** The first node that waits on `event` at or after the cursor `from`, position `p`, is
      unlinked; a NIL cursor means the head. Starting in the middle, the node under the cursor
      must not match, because the search knows no predecessor for it. The cursor left behind
      is always NIL: after a hit because the node's own link has just been cleared. */
  method RemoveEvt(l: List, next: array<Link>, table: array<Process>, from: Link, event: int,
                   ghost q: seq<Slot>, ghost p: nat)
    returns (node: Link, cursor: Link)
    requires next.Length == TABLE_SIZE && table.Length == TABLE_SIZE && Linked(l.head, l.tail, next[..], q)
    requires if from == NIL then p == 0 else p < |q| && q[p] == from && (p > 0 ==> table[from].event != event)
    modifies l, next
    ensures cursor == NIL
    ensures var j := p + FirstWaiter(table[..], q[p..], event);
      && node == (if j < |q| then q[j] else NIL)
      && Linked(l.head, l.tail, next[..], if j < |q| then Without(q, q[j]) else q)
    ensures forall i: Slot :: i !in q ==> next[i] == old(next[i])
  {
    hide FirstWaiter, Without;
    node := if from != NIL then from else l.head;
    var prev: Link := NIL;
    ghost var j := p;
    while node != NIL
      invariant p <= j <= |q| && node == (if j < |q| then q[j] else NIL)
      invariant prev == (if j > p then q[j-1] else NIL)
      invariant forall n :: p <= n < j ==> table[q[n]].event != event
      invariant Linked(l.head, l.tail, next[..], q) && next[..] == old(next[..])
      invariant l.head == old(l.head) && l.tail == old(l.tail)
      decreases |q| - j
    {
      if table[node].event == event {
        FirstWaiterFrom(table[..], q, p, event, j);
        Detach(l, next, node, prev, q, j);
        return node, next[node];
      }
      prev := node;
      node := next[node];
      j := j + 1;
    }
    FirstWaiterFrom(table[..], q, p, event, |q|);
    return NIL, NIL;
  }
}
