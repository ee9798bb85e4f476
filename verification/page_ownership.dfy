/** Who owns each physical page: the allocator or one process slot. The rules of alloc_new_process,
    copy_uvm and free_uvm (process/process.c, memory/memory.c) on the free list and on what
    each slot holds. */
module PageOwnership {
  import opened Sequences
  import opened ProcessModel
  import opened MemoryManager

  /** What a slot holds: nothing, the environment page that a failed fork leaves behind, or a
      page of tables, a program page and an environment page. */
  datatype Holding = Nothing | Leftover(spare: bv64) | Space(tables: bv64, program: bv64, env: bv64)

  datatype Pages = Pages(free: seq<bv64>, holdings: seq<Holding>)

  function PagesOf(h: Holding): seq<bv64> {
    match h
    case Nothing => []
    case Leftover(e) => [e]
    case Space(t, p, e) => [t, e, p]
  }

  function Copies(s: seq<bv64>, q: bv64): nat {
    if s == [] then 0 else (if s[0] == q then 1 else 0) + Copies(s[1..], q)
  }

  /** How often the slots hold a page. */
  function Held(h: seq<Holding>, q: bv64): nat {
    if h == [] then 0 else Copies(PagesOf(h[0]), q) + Held(h[1..], q)
  }

  function HeldCount(h: seq<Holding>): nat {
    if h == [] then 0 else |PagesOf(h[0])| + HeldCount(h[1..])
  }

  function Owners(p: Pages, q: bv64): nat {
    Copies(p.free, q) + Held(p.holdings, q)
  }

  /** Every page of memory past the kernel is free or held by one slot, exactly once; nothing
      else is free or held. */
  ghost predicate Partition(kernEnd: bv64, p: Pages) {
    |p.holdings| == TABLE_SIZE && forall q: bv64 :: Owners(p, q) == if PageOk(kernEnd, q) then 1 else 0
  }

  /** The memory of a new process in slot `i`: tables, environment, program, in this order.
      `found` says whether the program's file could be opened. */
  function ForkPages(p: Pages, i: Slot, found: bool): Pages
    requires |p.free| >= 2 && |p.holdings| == TABLE_SIZE
  {
    if found && |p.free| >= 3 then Pages(p.free[3..], p.holdings[i := Space(p.free[0], p.free[2], p.free[1])])
    else Pages([p.free[0]] + p.free[2..], p.holdings[i := Leftover(p.free[1])])
  }

  /** What free_uvm hands back, most recently freed first. */
  function ReapPages(p: Pages, i: Slot): Pages
    requires |p.holdings| == TABLE_SIZE
  {
    Pages(PagesOf(p.holdings[i]) + p.free, p.holdings[i := Nothing])
  }

  lemma {:induction false} CopiesSplit(s: seq<bv64>, t: seq<bv64>, q: bv64)
    ensures Copies(s + t, q) == Copies(s, q) + Copies(t, q)
  {
    if s == [] {
      assert s + t == t;
    } else {
      assert (s + t)[1..] == s[1..] + t;
      CopiesSplit(s[1..], t, q);
    }
  }

  lemma {:induction false} CopiesIn(s: seq<bv64>, q: bv64)
    ensures Copies(s, q) > 0 <==> q in s
  {
    if s != [] {
      CopiesIn(s[1..], q);
      assert s == [s[0]] + s[1..];
    }
  }

  /** Free lists have no duplicates in a partition. */
  lemma {:induction false} CopiesNoDup(s: seq<bv64>)
    requires forall q: bv64 :: Copies(s, q) <= 1
    ensures NoDup(s)
  {
    if s != [] {
      forall q: bv64
        ensures Copies(s[1..], q) <= 1
      {
        assert Copies(s, q) <= 1;
      }
      CopiesNoDup(s[1..]);
      assert Copies(s, s[0]) <= 1;
      CopiesIn(s[1..], s[0]);
      NoDupPrepend(s[0], s[1..]);
      assert s == [s[0]] + s[1..];
    }
  }

  lemma {:induction false} HeldUpdate(h: seq<Holding>, i: nat, x: Holding, q: bv64)
    requires i < |h|
    ensures Held(h[i := x], q) + Copies(PagesOf(h[i]), q) == Held(h, q) + Copies(PagesOf(x), q)
  {
    hide PagesOf, Copies;
    var h' := h[i := x];
    if i == 0 {
      assert h'[1..] == h[1..];
    } else {
      assert h'[1..] == h[1..][i-1 := x];
      HeldUpdate(h[1..], i - 1, x, q);
    }
  }

  lemma {:induction false} HeldCountUpdate(h: seq<Holding>, i: nat, x: Holding)
    requires i < |h|
    ensures HeldCount(h[i := x]) + |PagesOf(h[i])| == HeldCount(h) + |PagesOf(x)|
  {
    hide PagesOf;
    var h' := h[i := x];
    if i == 0 {
      assert h'[1..] == h[1..];
    } else {
      assert h'[1..] == h[1..][i-1 := x];
      HeldCountUpdate(h[1..], i - 1, x);
    }
  }

  lemma {:induction false} HeldAt(h: seq<Holding>, i: nat, q: bv64)
    requires i < |h|
    ensures Copies(PagesOf(h[i]), q) <= Held(h, q)
  {
    hide PagesOf, Copies;
    if i != 0 {
      HeldAt(h[1..], i - 1, q);
    }
  }

  lemma {:induction false} HeldTwo(h: seq<Holding>, i: nat, j: nat, q: bv64)
    requires i < j < |h|
    ensures Copies(PagesOf(h[i]), q) + Copies(PagesOf(h[j]), q) <= Held(h, q)
  {
    hide PagesOf, Copies;
    if i == 0 {
      HeldAt(h[1..], j - 1, q);
    } else {
      HeldTwo(h[1..], i - 1, j - 1, q);
    }
  }

  lemma TakeThree(f: seq<bv64>, q: bv64)
    requires |f| >= 3
    ensures Copies(f, q) == Copies([f[0], f[1], f[2]], q) + Copies(f[3..], q)
  {
    assert f == [f[0], f[1], f[2]] + f[3..];
    CopiesSplit([f[0], f[1], f[2]], f[3..], q);
  }

  lemma TakeTwo(f: seq<bv64>, q: bv64)
    requires |f| >= 2
    ensures Copies(f, q) == Copies([f[1]], q) + Copies([f[0]] + f[2..], q)
  {
    hide Copies;
    assert f == [f[0]] + ([f[1]] + f[2..]);
    CopiesSplit([f[0]], [f[1]] + f[2..], q);
    CopiesSplit([f[1]], f[2..], q);
    CopiesSplit([f[0]], f[2..], q);
  }

  lemma Three(x: bv64, y: bv64, z: bv64, q: bv64)
    ensures Copies([x, y, z], q) == (if x == q then 1 else 0) + (if y == q then 1 else 0) + (if z == q then 1 else 0)
  {
    assert Copies([z], q) == if z == q then 1 else 0 by {
      assert [z][1..] == [];
    }
    assert Copies([y, z], q) == (if y == q then 1 else 0) + Copies([z], q) by {
      assert [y, z][1..] == [z];
    }
    assert [x, y, z][1..] == [y, z];
  }

  /** fork moves pages from the allocator to the slot; none is lost or doubled. */
  lemma ForkOwners(p: Pages, i: Slot, found: bool, q: bv64)
    requires |p.free| >= 2 && |p.holdings| == TABLE_SIZE && p.holdings[i] == Nothing
    ensures Owners(ForkPages(p, i, found), q) == Owners(p, q)
  {
    hide Copies, Held;
    var f := p.free;
    assert Copies([], q) == 0 by {
      CopiesIn([], q);
    }
    if found && |f| >= 3 {
      HeldUpdate(p.holdings, i, Space(f[0], f[2], f[1]), q);
      TakeThree(f, q);
    } else {
      HeldUpdate(p.holdings, i, Leftover(f[1]), q);
      TakeTwo(f, q);
    }
  }

  lemma ForkKeepsPartition(kernEnd: bv64, p: Pages, i: Slot, found: bool)
    requires Partition(kernEnd, p) && |p.free| >= 2 && p.holdings[i] == Nothing
    ensures Partition(kernEnd, ForkPages(p, i, found))
  {
    hide PageOk, Owners;
    forall q: bv64
      ensures Owners(ForkPages(p, i, found), q) == Owners(p, q)
    {
      ForkOwners(p, i, found, q);
    }
  }

  /** Reaping hands back what the slot held and nothing else. */
  lemma ReapOwners(p: Pages, i: Slot, q: bv64)
    requires |p.holdings| == TABLE_SIZE
    ensures Owners(ReapPages(p, i), q) == Owners(p, q)
  {
    hide Copies, Held;
    HeldUpdate(p.holdings, i, Nothing, q);
    CopiesSplit(PagesOf(p.holdings[i]), p.free, q);
    CopiesIn([], q);
  }

  lemma ReapKeepsPartition(kernEnd: bv64, p: Pages, i: Slot)
    requires Partition(kernEnd, p)
    ensures Partition(kernEnd, ReapPages(p, i))
  {
    hide PageOk, Owners;
    forall q: bv64
      ensures Owners(ReapPages(p, i), q) == Owners(p, q)
    {
      ReapOwners(p, i, q);
    }
  }

  /** fork and the reaping of the child cancel out, up to the order of the first three pages. */
  lemma ReapUndoesFork(p: Pages, i: Slot, q: bv64)
    requires |p.holdings| == TABLE_SIZE && |p.free| >= 3 && p.holdings[i] == Nothing
    ensures var r := ReapPages(ForkPages(p, i, true), i);
      r.holdings == p.holdings && Copies(r.free, q) == Copies(p.free, q) && r.free[3..] == p.free[3..]
  {
    var f := p.free;
    TakeThree(f, q);
    CopiesSplit([f[0], f[1], f[2]], f[3..], q);
    hide Copies;
  }

  /** A page in use is in memory, not free, held once by its slot and by no other. */
  lemma Exclusively(kernEnd: bv64, p: Pages, i: Slot, q: bv64)
    requires Partition(kernEnd, p) && q in PagesOf(p.holdings[i])
    ensures PageOk(kernEnd, q) && q !in p.free && Copies(PagesOf(p.holdings[i]), q) == 1
    ensures forall j: Slot :: j != i ==> q !in PagesOf(p.holdings[j])
  {
    hide Held, Copies, PagesOf, PageOk;
    HeldAt(p.holdings, i, q);
    CopiesIn(PagesOf(p.holdings[i]), q);
    CopiesIn(p.free, q);
    assert Owners(p, q) <= 1;
    forall j: Slot | j != i
      ensures q !in PagesOf(p.holdings[j])
    {
      HeldTwo(p.holdings, if i < j then i else j, if i < j then j else i, q);
      CopiesIn(PagesOf(p.holdings[j]), q);
    }
  }

  /** A complete process owns three different pages. */
  lemma ThreePages(kernEnd: bv64, p: Pages, i: Slot)
    requires Partition(kernEnd, p) && p.holdings[i].Space?
    ensures var h := p.holdings[i];
      h.tables != h.program && h.tables != h.env && h.program != h.env
  {
    hide Held, Copies, Owners, PageOk;
    var h := p.holdings[i];
    assert h.tables in PagesOf(h) && h.program in PagesOf(h);
    Exclusively(kernEnd, p, i, h.tables);
    Exclusively(kernEnd, p, i, h.program);
    Three(h.tables, h.env, h.program, h.tables);
    Three(h.tables, h.env, h.program, h.program);
  }

  lemma {:induction false} SomeHolder(h: seq<Holding>, q: bv64) returns (i: nat)
    requires Held(h, q) > 0
    ensures i < |h| && q in PagesOf(h[i])
  {
    hide PagesOf, Copies;
    CopiesIn(PagesOf(h[0]), q);
    if q in PagesOf(h[0]) {
      i := 0;
    } else {
      i := SomeHolder(h[1..], q);
      i := i + 1;
    }
  }

  lemma SomeOwner(p: Pages, q: bv64)
    requires |p.holdings| == TABLE_SIZE && Owners(p, q) > 0
    ensures q in p.free || exists i: Slot :: q in PagesOf(p.holdings[i])
  {
    hide PagesOf, Copies, Held;
    CopiesIn(p.free, q);
    if q !in p.free {
      var i := SomeHolder(p.holdings, q);
      var j: Slot := i;
      assert q in PagesOf(p.holdings[j]);
    }
  }

  lemma FreeOnce(kernEnd: bv64, p: Pages)
    requires Partition(kernEnd, p)
    ensures NoDup(p.free)
  {
    hide PageOk, NoDup, Copies, Held;
    forall q: bv64
      ensures Copies(p.free, q) <= 1
    {
      assert Owners(p, q) <= 1;
    }
    CopiesNoDup(p.free);
  }

  /** The number of pages, free and held. */
  function Total(p: Pages): nat {
    |p.free| + HeldCount(p.holdings)
  }

  lemma ForkKeepsTotal(p: Pages, i: Slot, found: bool)
    requires |p.free| >= 2 && |p.holdings| == TABLE_SIZE && p.holdings[i] == Nothing
    ensures Total(ForkPages(p, i, found)) == Total(p)
  {
    hide HeldCount;
    HeldCountUpdate(p.holdings, i, ForkPages(p, i, found).holdings[i]);
  }

  lemma ReapKeepsTotal(p: Pages, i: Slot)
    requires |p.holdings| == TABLE_SIZE
    ensures Total(ReapPages(p, i)) == Total(p)
  {
    hide HeldCount;
    HeldCountUpdate(p.holdings, i, Nothing);
  }

  function CountSpaces(h: seq<Holding>): nat {
    if h == [] then 0 else (if h[0].Space? then 1 else 0) + CountSpaces(h[1..])
  }

  function CountLeftovers(h: seq<Holding>): nat {
    if h == [] then 0 else (if h[0].Leftover? then 1 else 0) + CountLeftovers(h[1..])
  }

  /** A complete process costs three pages, a failed fork one. */
  lemma {:induction false} HeldCountIs(h: seq<Holding>)
    ensures HeldCount(h) == 3 * CountSpaces(h) + CountLeftovers(h)
  {
    if h != [] {
      HeldCountIs(h[1..]);
    }
  }

  lemma Ownership(kernEnd: bv64, p: Pages)
    requires Partition(kernEnd, p)
    ensures NoDup(p.free)
    ensures forall i: Slot, q: bv64 :: q in PagesOf(p.holdings[i]) ==> PageOk(kernEnd, q) && q !in p.free
    ensures forall i: Slot, j: Slot, q: bv64 :: q in PagesOf(p.holdings[i]) && q in PagesOf(p.holdings[j]) ==> i == j
    ensures forall q: bv64 :: PageOk(kernEnd, q) ==> q in p.free || exists i: Slot :: q in PagesOf(p.holdings[i])
  {
    hide PageOk, NoDup, PagesOf, Copies, Held, Owners;
    FreeOnce(kernEnd, p);
    forall i: Slot, q: bv64 | q in PagesOf(p.holdings[i])
      ensures PageOk(kernEnd, q) && q !in p.free
    {
      Exclusively(kernEnd, p, i, q);
    }
    forall i: Slot, j: Slot, q: bv64 | q in PagesOf(p.holdings[i]) && q in PagesOf(p.holdings[j])
      ensures i == j
    {
      Exclusively(kernEnd, p, i, q);
    }
    forall q: bv64 | PageOk(kernEnd, q)
      ensures q in p.free || exists i: Slot :: q in PagesOf(p.holdings[i])
    {
      SomeOwner(p, q);
    }
  }
}
