/** Facts about duplicate-free sequences, which stand for the process queues. */
module Sequences {

  ghost predicate NoDup<T>(q: seq<T>) {
    forall i, j :: 0 <= i < j < |q| ==> q[i] != q[j]
  }

  /** The sequence without the first occurrence of `x`, as unlinking a node leaves it. */
  function Without<T(==)>(q: seq<T>, x: T): (r: seq<T>)
    ensures x !in q ==> r == q
    ensures x in q ==> |r| == |q| - 1
    ensures forall y :: y in r ==> y in q
    ensures forall y :: y != x && y in q ==> y in r
  {
    if q == [] then []
    else if q[0] == x then q[1..]
    else
      var r := [q[0]] + Without(q[1..], x);
      assert q == [q[0]] + q[1..];
      r
  }

  lemma NoDupPrepend<T>(x: T, q: seq<T>)
    requires NoDup(q) && x !in q
    ensures NoDup([x] + q)
  {
  }

  lemma {:induction false} WithoutNoDup<T>(q: seq<T>, x: T)
    requires NoDup(q)
    ensures NoDup(Without(q, x)) && x !in Without(q, x)
  {
    if q != [] {
      var rest := q[1..];
      assert NoDup(rest) by {
        assert forall j :: 0 <= j < |rest| ==> rest[j] == q[j+1];
      }
      assert q[0] !in rest;
      if q[0] != x {
        WithoutNoDup(rest, x);
        NoDupPrepend(q[0], Without(rest, x));
      }
    }
  }

  lemma {:induction false} WithoutAt<T>(q: seq<T>, j: nat)
    requires j < |q| && NoDup(q)
    ensures Without(q, q[j]) == q[..j] + q[j+1..]
  {
    if j == 0 {
    } else {
      assert q[1..][j-1] == q[j] && NoDup(q[1..]);
      WithoutAt(q[1..], j - 1);
      assert q[..j] + q[j+1..] == [q[0]] + (q[1..][..j-1] + q[1..][j..]);
    }
  }

  lemma NoDupAppend<T>(q: seq<T>, x: T)
    requires NoDup(q) && x !in q
    ensures NoDup(q + [x])
  {
  }

  function Elements<T>(q: seq<T>): set<T> {
    set x | x in q
  }

  lemma {:induction false} ElementsSize<T>(q: seq<T>)
    requires NoDup(q)
    ensures |Elements(q)| == |q|
  {
    if q != [] {
      var rest, last := q[..|q|-1], q[|q|-1];
      assert q == rest + [last] && last !in rest;
      ElementsSize(rest);
      assert Elements(q) == Elements(rest) + {last};
    }
  }

  function Backwards<T>(s: seq<T>): seq<T> {
    if s == [] then [] else [s[|s| - 1]] + Backwards(s[..|s| - 1])
  }

  lemma {:induction false} BackwardsLength<T>(s: seq<T>)
    ensures |Backwards(s)| == |s|
  {
    if s != [] {
      BackwardsLength(s[..|s| - 1]);
    }
  }

  lemma {:induction false} BackwardsAt<T>(s: seq<T>, k: nat)
    requires k < |s|
    ensures |Backwards(s)| == |s| && Backwards(s)[k] == s[|s| - 1 - k]
  {
    BackwardsLength(s);
    if k > 0 {
      BackwardsAt(s[..|s| - 1], k - 1);
    }
  }

  /** What a push at the back of an intrusive list makes of it: a new node comes last; one
      that is on the list already becomes the last, and what followed it is lost. */
  function Pushed<T(==)>(q: seq<T>, x: T): seq<T> {
    if q == [] || q[0] == x then [x] else [q[0]] + Pushed(q[1..], x)
  }

  lemma {:induction false} PushedNew<T>(q: seq<T>, x: T)
    requires x !in q
    ensures Pushed(q, x) == q + [x]
  {
    if q != [] {
      PushedNew(q[1..], x);
      assert q + [x] == [q[0]] + (q[1..] + [x]);
    }
  }

  lemma {:induction false} PushedAgain<T>(q: seq<T>, j: nat)
    requires NoDup(q) && j < |q|
    ensures Pushed(q, q[j]) == q[..j + 1]
  {
    if j > 0 {
      assert q[0] != q[j] && q[1..][j-1] == q[j];
      PushedAgain(q[1..], j - 1);
      assert q[..j + 1] == [q[0]] + q[1..][..j];
    }
  }

  lemma PushedLast<T>(q: seq<T>, x: T)
    requires NoDup(q) && q != [] && q[|q| - 1] == x
    ensures Pushed(q, x) == q
  {
    PushedAgain(q, |q| - 1);
  }
}
