/** The memory of the process table: page tables and pages of every slot, over the words of
    memory. fork's and wait's part of memory/memory.c and process/process.c. */
module AddressSpaces {
  import opened Sequences
  import opened ProcessModel
  import opened Paging
  import opened MemoryManager
  import opened PageMemory
  import opened PageOwnership

  /** The tables of a slot map its program page and its environment page, and nothing else. */
  ghost predicate Backed(m: Words, h: Holding) {
    h.Space? ==> Represents(m, h.tables, USERSPACE_BASE, UserPages(h.program, h.env))
  }

  ghost predicate AllBacked(m: Words, holdings: seq<Holding>) {
    forall i :: 0 <= i < |holdings| ==> Backed(m, holdings[i])
  }

  class AddressSpaces {
    const memory: Memory
    /** page_map of each slot. */
    const tables: array<bv64>
    ghost var holdings: seq<Holding>

    ghost function Owned(): Pages
      reads this, memory
    {
      Pages(memory.free, holdings)
    }

    ghost predicate Valid()
      reads this, memory, tables
    {
      && memory.Valid() && tables.Length == TABLE_SIZE && |holdings| == TABLE_SIZE
      && Partition(memory.kernEnd, Owned())
      && AllBacked(memory.words, holdings)
      && forall i: Slot :: holdings[i].Space? ==> tables[i] == holdings[i].tables
    }

    /** Boot: all pages are free. */
    constructor (m: Memory)
      requires m.Valid() && forall q: bv64 :: q in m.free <==> PageOk(m.kernEnd, q)
      ensures Valid() && memory == m && fresh(tables) && holdings == seq(TABLE_SIZE, i => Nothing)
    {
      hide PageOk, FreeList, NoDup;
      memory := m;
      tables := new bv64[TABLE_SIZE];
      holdings := seq(TABLE_SIZE, i => Nothing);
      new;
      FreeNoDup(m.words, m.freeHead, m.free);
      BootPartition(m.kernEnd, m.free, holdings);
    }

    /** The memory of the first user process, which has no parent to copy from. */
    method Start(i: Slot, loaded: bool) returns (ok: bool)
      requires Valid() && holdings[i] == Nothing && |memory.free| >= 2
      modifies this`holdings, memory, tables
      ensures Valid() && Owned() == ForkPages(old(Owned()), i, loaded) && ok == holdings[i].Space?
    {
      hide Partition, AllBacked, PageOk, FreeList, Represents, OnlyPage, OnlyThree, UserPages, Load, PageOf;
      ghost var before, p := memory.words, Owned();
      ghost var f := memory.free;
      var gdt, env := memory.NewSpace();
      assert gdt == f[0] && env == f[1] && (|f| >= 3 ==> f[2..][0] == f[2]);
      KernelPageNotNull(memory.kernEnd, gdt);
      tables[i] := gdt;
      ghost var middle := memory.words;
      ok := memory.SetupUvm(gdt, env, loaded);
      OnlyThreeThen(before, middle, memory.words, gdt, if |f| == 2 then NULL else f[2], NULL);
      ForkKeepsPartition(memory.kernEnd, p, i, loaded);
      ForkBacked(memory.kernEnd, p, before, memory.words, i, loaded);
      holdings := ForkPages(p, i, loaded).holdings;
    }

    /** The memory side of fork for slot `i`; `found` says whether the program's file opens.
        Without two free pages the kernel halts in an assertion. */
    method Fork(i: Slot, parent: Slot, found: bool) returns (ok: bool)
      requires Valid() && holdings[i] == Nothing && holdings[parent].Space? && |memory.free| >= 2
      modifies this`holdings, memory, tables
      ensures Valid() && Owned() == ForkPages(old(Owned()), i, found) && ok == holdings[i].Space?
      ensures OnlyThree(old(memory.words), memory.words, old(memory.free)[0],
                        if |old(memory.free)| == 2 then NULL else old(memory.free)[2], NULL)
    {
      hide Partition, AllBacked, PageOk, FreeList, Represents, OnlyPage, OnlyThree, UserPages, Load, PageOf;
      ghost var before, p := memory.words, Owned();
      ghost var f := memory.free;
      PagesInMemory(memory.kernEnd, p, parent);
      BackedAt(before, holdings, parent);
      var gdt, env := memory.NewSpace();
      assert gdt == f[0] && env == f[1] && (|f| >= 3 ==> f[2..][0] == f[2]);
      KernelPageNotNull(memory.kernEnd, gdt);
      tables[i] := gdt;
      ghost var middle := memory.words;
      ghost var source := p.holdings[parent];
      TablesStay(before, middle, gdt, source);
      SourceMapped(source.program, source.env);
      assert tables[parent] == source.tables;
      ok := memory.CopyUvm(gdt, env, tables[parent], found, UserPages(source.program, source.env));
      OnlyThreeThen(before, middle, memory.words, gdt, if |f| == 2 then NULL else f[2], NULL);
      ForkKeepsPartition(memory.kernEnd, p, i, found);
      ForkBacked(memory.kernEnd, p, before, memory.words, i, found);
      holdings := ForkPages(p, i, found).holdings;
    }

    /** The memory side of reaping slot `i`: the tables are walked before they are freed. */
    method Reap(i: Slot)
      requires Valid() && holdings[i].Space?
      modifies this`holdings, memory
      ensures Valid() && Owned() == ReapPages(old(Owned()), i)
      ensures memory.free == [tables[i], old(holdings[i].env), old(holdings[i].program)] + old(memory.free)
    {
      hide Partition, AllBacked, PageOk, FreeList, Represents, OnlyPage, OnlyThree, UserPages, Load, PageOf, PageAt,
        Mapped;
      ghost var before, p := memory.words, Owned();
      ghost var h := holdings[i];
      BackedAt(before, holdings, i);
      PagesInMemory(memory.kernEnd, p, i);
      UserPagesAre(h.program, h.env);
      SourceMapped(h.program, h.env);
      memory.FreeUvm(tables[i], UserPages(h.program, h.env));
      assert PagesOf(h) == [h.tables] + [h.env] + [h.program];
      ReapKeepsPartition(memory.kernEnd, p, i);
      ReapBacked(memory.kernEnd, p, before, memory.words, i);
      holdings := ReapPages(p, i).holdings;
    }
  }

  lemma FreeNoDup(m: Words, head: bv64, free: seq<bv64>)
    requires FreeList(m, head, free)
    ensures NoDup(free)
  {
  }

  lemma {:induction false} NoDupCopies(s: seq<bv64>, q: bv64)
    requires NoDup(s)
    ensures Copies(s, q) == if q in s then 1 else 0
  {
    CopiesIn(s, q);
    if s != [] {
      assert forall i :: 0 <= i < |s| - 1 ==> s[1..][i] == s[i+1];
      NoDupCopies(s[1..], q);
      CopiesIn(s[1..], q);
    }
  }

  lemma {:induction false} HeldNothing(h: seq<Holding>, q: bv64)
    requires forall i :: 0 <= i < |h| ==> h[i] == Nothing
    ensures Held(h, q) == 0
  {
    if h != [] {
      HeldNothing(h[1..], q);
      CopiesIn([], q);
    }
    hide Copies;
  }

  lemma BootPartition(kernEnd: bv64, free: seq<bv64>, holdings: seq<Holding>)
    requires NoDup(free) && forall q: bv64 :: q in free <==> PageOk(kernEnd, q)
    requires |holdings| == TABLE_SIZE && forall i :: 0 <= i < |holdings| ==> holdings[i] == Nothing
    ensures Partition(kernEnd, Pages(free, holdings))
  {
    hide PageOk, NoDup, Held, Copies;
    forall q: bv64
      ensures Owners(Pages(free, holdings), q) == if PageOk(kernEnd, q) then 1 else 0
    {
      NoDupCopies(free, q);
      HeldNothing(holdings, q);
    }
  }

  lemma BackedAt(m: Words, holdings: seq<Holding>, i: nat)
    requires AllBacked(m, holdings) && i < |holdings|
    ensures Backed(m, holdings[i])
  {
    hide Backed;
  }

  lemma KernelPageNotNull(kernEnd: bv64, p: bv64)
    requires KERNEL_BASE <= kernEnd && PageOk(kernEnd, p)
    ensures p != NULL
  {
  }

  /** The pages of a slot are pages of memory, different from each other and from all free ones. */
  lemma PagesInMemory(kernEnd: bv64, p: Pages, i: Slot)
    requires KERNEL_BASE <= kernEnd && Partition(kernEnd, p) && p.holdings[i].Space?
    ensures var h := p.holdings[i];
      && Returnable(kernEnd, h.tables, p.free) && Returnable(kernEnd, h.program, p.free)
      && Returnable(kernEnd, h.env, p.free)
      && h.tables != h.program && h.tables != h.env && h.program != h.env
  {
    var h := p.holdings[i];
    ThreePages(kernEnd, p, i);
    assert h.tables in PagesOf(h) && h.program in PagesOf(h) && h.env in PagesOf(h);
    Exclusively(kernEnd, p, i, h.tables);
    Exclusively(kernEnd, p, i, h.program);
    Exclusively(kernEnd, p, i, h.env);
    hide PageOk, Partition, PagesOf, KERNEL_BASE;
    KernelPageNotNull(kernEnd, h.tables);
    KernelPageNotNull(kernEnd, h.program);
    KernelPageNotNull(kernEnd, h.env);
  }

  lemma SourceMapped(program: bv64, env: bv64)
    ensures Mapped(UserPages(program, env), USERSPACE_BASE) && Mapped(UserPages(program, env), USERSPACE_EXT)
    ensures PageAt(UserPages(program, env), USERSPACE_BASE) == program
      && PageAt(UserPages(program, env), USERSPACE_EXT) == env
  {
    UserPagesAre(program, env);
    hide UserPages, PageAt, Mapped;
  }

  /** Tables outside the pages written to stay as they are. */
  lemma BackedStays(m: Words, m': Words, h: Holding, p: bv64, q: bv64, r: bv64)
    requires Backed(m, h) && OnlyThree(m, m', p, q, r)
    requires h.Space? ==> h.tables != p && h.tables != q && h.tables != r
    ensures Backed(m', h)
  {
    hide Represents, Load, PageOf;
    if h.Space? {
      RepresentsFrame(m, m', h.tables, USERSPACE_BASE, UserPages(h.program, h.env));
    }
  }

  lemma TablesStay(m: Words, m': Words, gdt: bv64, h: Holding)
    requires Backed(m, h) && OnlyPage(m, m', gdt) && h.Space? && h.tables != gdt
    ensures Backed(m', h)
  {
    hide Backed, OnlyPage, OnlyThree;
    OnlyThreeOne(m, m', gdt, gdt, gdt);
    BackedStays(m, m', h, gdt, gdt, gdt);
  }

  lemma ForkBacked(kernEnd: bv64, p: Pages, m: Words, m': Words, i: Slot, found: bool)
    requires KERNEL_BASE <= kernEnd && Partition(kernEnd, p) && AllBacked(m, p.holdings) && |p.free| >= 2
    requires OnlyThree(m, m', p.free[0], if |p.free| == 2 then NULL else p.free[2], NULL)
    requires Backed(m', ForkPages(p, i, found).holdings[i])
    ensures AllBacked(m', ForkPages(p, i, found).holdings)
  {
    hide Backed, OnlyThree, Owners;
    var h := ForkPages(p, i, found).holdings;
    forall j | 0 <= j < |h|
      ensures Backed(m', h[j])
    {
      if j != i {
        assert h[j] == p.holdings[j];
        if h[j].Space? {
          PagesInMemory(kernEnd, p, j);
        }
        BackedStays(m, m', h[j], p.free[0], if |p.free| == 2 then NULL else p.free[2], NULL);
      }
    }
  }

  lemma ReapBacked(kernEnd: bv64, p: Pages, m: Words, m': Words, i: Slot)
    requires Partition(kernEnd, p) && AllBacked(m, p.holdings) && p.holdings[i].Space?
    requires OnlyThree(m, m', p.holdings[i].tables, p.holdings[i].program, p.holdings[i].env)
    ensures AllBacked(m', ReapPages(p, i).holdings)
  {
    hide OnlyThree, Represents, UserPages, PageOk, Owners;
    var g := p.holdings[i];
    var h := ReapPages(p, i).holdings;
    forall j | 0 <= j < |h|
      ensures Backed(m', h[j])
    {
      if j != i {
        assert h[j] == p.holdings[j];
        if h[j].Space? {
          assert h[j].tables in PagesOf(h[j]);
          Exclusively(kernEnd, p, j, h[j].tables);
          assert h[j].tables !in PagesOf(g);
          assert g.tables in PagesOf(g) && g.program in PagesOf(g) && g.env in PagesOf(g);
        }
        BackedStays(m, m', h[j], g.tables, g.program, g.env);
      }
    }
  }
}
