/** The page allocator and the page-table operations of memory/memory.c over words of memory.
    The free list runs through the first word of each free page. */
module MemoryManager {
  import opened Sequences
  import opened Paging

  const NULL: bv64 := 0

  predicate InTable(a: bv64, table: bv64) {
    a - table < TABLE_BYTES
  }

  /** memset of one table to zero. */
  function ZeroTable(m: Words, table: bv64): Words {
    map a | a in m && !InTable(a.bits, table) :: m[a]
  }

  lemma ZeroTableLoad(m: Words, table: bv64, a: bv64)
    ensures Load(ZeroTable(m, table), a) == if InTable(a, table) then 0 else Load(m, a)
  {
    hide InTable;
    assert Word(a).bits == a;
  }

  /** What kalloc and kfree assert of a page: aligned, past the kernel, below the end. */
  predicate PageOk(kernEnd: bv64, p: bv64) {
    p & 0x1f_ffff == 0 && kernEnd <= p && p <= MEMORY_END - PAGE_SIZE
  }

  /** The links from `head` run through `free`, through the first word of each page. */
  ghost predicate FreeList(m: Words, head: bv64, free: seq<bv64>) {
    && NoDup(free)
    && (forall i :: 0 <= i < |free| ==> free[i] != NULL && Aligned(free[i]))
    && head == NextFree(free, 0)
    && (forall i :: 0 <= i < |free| ==> Load(m, free[i]) == NextFree(free, i + 1))
  }

  function NextFree(free: seq<bv64>, i: nat): bv64 {
    if i < |free| then free[i] else NULL
  }

  lemma FreeListPush(m: Words, head: bv64, free: seq<bv64>, p: bv64)
    requires FreeList(m, head, free) && p !in free && p != NULL && Aligned(p)
    ensures FreeList(Store(m, p, head), p, [p] + free)
  {
    hide Aligned, Store, Load;
    var m', free' := Store(m, p, head), [p] + free;
    forall i | 0 <= i < |free'|
      ensures Load(m', free'[i]) == NextFree(free', i + 1)
    {
      LoadStore(m, p, head, free'[i]);
      if i > 0 {
        assert free'[i] == free[i-1] && free[i-1] in free;
      }
    }
    NoDupPrepend(p, free);
    hide NoDup;
  }

  lemma FreeListPop(m: Words, head: bv64, free: seq<bv64>)
    requires FreeList(m, head, free) && free != []
    ensures FreeList(m, Load(m, head), free[1..]) && free[0] !in free[1..]
  {
    hide Aligned, Load;
    var rest := free[1..];
    assert forall i :: 0 <= i < |rest| ==> rest[i] == free[i+1];
    assert NextFree(free, 1) == NextFree(rest, 0);
    forall i | 0 <= i < |rest|
      ensures Load(m, rest[i]) == NextFree(rest, i + 1)
    {
      assert Load(m, free[i+1]) == NextFree(free, i + 2);
    }
  }

  /** The list survives any change outside its pages. */
  lemma FreeListFrame(m: Words, m': Words, head: bv64, free: seq<bv64>)
    requires FreeList(m, head, free) && forall p :: p in free ==> Load(m', p) == Load(m, p)
    ensures FreeList(m', head, free)
  {
    hide Aligned, Load, NextFree, NoDup;
  }

  lemma FreeListOnlyPage(m: Words, m': Words, head: bv64, free: seq<bv64>, page: bv64)
    requires FreeList(m, head, free) && OnlyPage(m, m', page) && page !in free
    ensures FreeList(m', head, free)
  {
    hide PageOf, Load, NextFree;
    forall p | p in free
      ensures Load(m', p) == Load(m, p)
    {
      AlignedPage(p);
    }
    FreeListFrame(m, m', head, free);
  }

  // ----- effects on the tables, on words

  /** The words after a table is cleared and linked from an entry. */
  function Link(m: Words, entry: bv64, table: bv64, attr: bv64): Words {
    Store(ZeroTable(m, table), entry, DirectoryEntry(table, attr))
  }

  /** The words after the upper and middle tables have been created for a region. */
  function Grown(m: Words, gdt: bv64, virt: bv64, attr: bv64): Words {
    Link(Link(m, EntryAt(gdt, GdtIndex(virt)), Udt(gdt), attr), EntryAt(Udt(gdt), UdtIndex(virt)), Mdt(gdt), attr)
  }

  /** The tables a walk meets are the ones behind the top table in its page. */
  predicate InOnePage(m: Words, gdt: bv64, virt: bv64) {
    && (GdtStep(m, gdt, virt) == Nowhere || GdtStep(m, gdt, virt) == At(Udt(gdt)))
    && (UdtStep(m, gdt, virt) == Nowhere || UdtStep(m, gdt, virt) == At(Mdt(gdt)))
  }

  /** The words after the missing tables of a walk have been created. */
  function Extended(m: Words, gdt: bv64, virt: bv64, attr: bv64): Words {
    if GdtStep(m, gdt, virt) == Nowhere then Grown(m, gdt, virt, attr)
    else Link(m, EntryAt(Udt(gdt), UdtIndex(virt)), Mdt(gdt), attr)
  }

  /** The middle table of a second region lands on the middle table of the first: every page
      mapped before is gone. This is why one address space is confined to one region. */
  lemma SecondRegionErases(m: Words, gdt: bv64, region: bv64, virt: bv64, attr: bv64, pages: map<Word, Word>)
    requires Represents(m, gdt, region, pages) && AttrOk(attr)
    requires UdtStep(m, gdt, region) == At(Mdt(gdt)) && GdtStep(m, gdt, region) == At(Udt(gdt))
    requires GdtIndex(virt) == GdtIndex(region) && UdtStep(m, gdt, virt) == Nowhere
    ensures Represents(Extended(m, gdt, virt, attr), gdt, region, map[])
  {
    hide Aligned, InTable, PageOf, EntryAt, Udt, Mdt, GdtIndex, UdtIndex, MdtIndex, Link, Load, Present, ToVirt,
      DirEntryAddr, AttrOk,
      SameRegion, Lookup, Find, PageNumber, TableEntryAddr, DirectoryEntry, GdtStep;
    assert GdtStep(m, gdt, virt) == At(Udt(gdt)) by {
      SameTop(m, gdt, virt, region);
    }
    var m' := Extended(m, gdt, virt, attr);
    SecondRegionSteps(m, gdt, region, virt, attr);
    forall v: bv64 | SameRegion(v, region)
      ensures Lookup(m', gdt, v) == Find(map[], PageNumber(v))
    {
      SameTables(m', gdt, region, v);
      IndexRange(v);
      IndexRange(virt);
      EntryInTable(Mdt(gdt), MdtIndex(v));
      UdtMdtApart(gdt, UdtIndex(virt), MdtIndex(v));
      LinkLoad(m, EntryAt(Udt(gdt), UdtIndex(virt)), Mdt(gdt), attr, EntryAt(Mdt(gdt), MdtIndex(v)));
      ZeroAbsent();
      EmptyLookup(m', gdt, v);
    }
  }

  lemma SameTop(m: Words, gdt: bv64, v: bv64, w: bv64)
    requires GdtIndex(v) == GdtIndex(w)
    ensures GdtStep(m, gdt, v) == GdtStep(m, gdt, w)
  {
    hide GdtIndex, EntryAt, Load, Present, ToVirt, DirEntryAddr;
  }

  lemma EmptyLookup(m: Words, gdt: bv64, v: bv64)
    requires UdtStep(m, gdt, v) == At(Mdt(gdt)) && !Present(Load(m, EntryAt(Mdt(gdt), MdtIndex(v))))
    ensures Lookup(m, gdt, v) == Find(map[], PageNumber(v))
  {
    hide EntryAt, Load, Present, UdtStep, MdtIndex, PageNumber, Mdt, TableEntryAddr;
  }

  lemma SecondRegionSteps(m: Words, gdt: bv64, region: bv64, virt: bv64, attr: bv64)
    requires Aligned(gdt) && UdtStep(m, gdt, region) == At(Mdt(gdt)) && GdtStep(m, gdt, region) == At(Udt(gdt))
    requires UdtStep(m, gdt, virt) == Nowhere && GdtStep(m, gdt, virt) == At(Udt(gdt))
    ensures var m' := Link(m, EntryAt(Udt(gdt), UdtIndex(virt)), Mdt(gdt), attr);
      GdtStep(m', gdt, region) == At(Udt(gdt)) && UdtStep(m', gdt, region) == At(Mdt(gdt))
  {
    hide Aligned, InTable, PageOf, EntryAt, Udt, Mdt, GdtIndex, UdtIndex, Link, Load, Present, ToVirt, DirEntryAddr,
      DirectoryEntry;
    IndexRange(virt);
    IndexRange(region);
    var e := EntryAt(Udt(gdt), UdtIndex(virt));
    GdtOutsideMdt(gdt, GdtIndex(region));
    GdtUdtApart(gdt, GdtIndex(region), UdtIndex(virt));
    LinkLoad(m, e, Mdt(gdt), attr, EntryAt(gdt, GdtIndex(region)));
    UdtOutsideMdt(gdt, UdtIndex(region));
    LinkLoad(m, e, Mdt(gdt), attr, EntryAt(Udt(gdt), UdtIndex(region)));
  }

  lemma LinkLoad(m: Words, entry: bv64, table: bv64, attr: bv64, a: bv64)
    ensures Load(Link(m, entry, table, attr), a) ==
      if a == entry then DirectoryEntry(table, attr) else if InTable(a, table) then 0 else Load(m, a)
  {
    hide Load, Store, InTable, DirectoryEntry, ZeroTable;
    ZeroTableLoad(m, table, a);
    LoadStore(ZeroTable(m, table), entry, DirectoryEntry(table, attr), a);
  }

  lemma GdtOutsideMdt(gdt: bv64, i: bv64)
    requires i < 512
    ensures !InTable(EntryAt(gdt, i), Mdt(gdt))
  {
  }

  lemma UdtOutsideMdt(gdt: bv64, i: bv64)
    requires i < 512
    ensures !InTable(EntryAt(Udt(gdt), i), Mdt(gdt))
  {
  }

  lemma EntryInTable(t: bv64, i: bv64)
    requires i < 512
    ensures InTable(EntryAt(t, i), t)
  {
    EntryBytes(i);
    Offset(t, i << 3);
  }

  lemma EntryBytes(i: bv64)
    requires i < 512
    ensures i << 3 < TABLE_BYTES
  {
  }

  lemma Offset(t: bv64, x: bv64)
    ensures (t + x) - t == x
  {
  }

  lemma GdtInPage(gdt: bv64, a: bv64)
    requires Aligned(gdt) && InTable(a, gdt)
    ensures PageOf(a) == gdt
  {
  }

  lemma UdtInPage(gdt: bv64, a: bv64)
    requires Aligned(gdt) && InTable(a, Udt(gdt))
    ensures PageOf(a) == gdt
  {
  }

  lemma MdtInPage(gdt: bv64, a: bv64)
    requires Aligned(gdt) && InTable(a, Mdt(gdt))
    ensures PageOf(a) == gdt
  {
  }

  /** Creating the tables stays inside their page. */
  lemma GrownOnlyPage(m: Words, gdt: bv64, virt: bv64, attr: bv64)
    requires Aligned(gdt)
    ensures OnlyPage(m, Grown(m, gdt, virt, attr), gdt)
  {
    IndexRange(virt);
    hide Aligned, InTable, PageOf, EntryAt, Udt, Mdt, GdtIndex, UdtIndex, Link, Load;
    EntryPages(gdt, GdtIndex(virt));
    EntryPages(gdt, UdtIndex(virt));
    forall a: bv64 | PageOf(a) != gdt
      ensures Load(Grown(m, gdt, virt, attr), a) == Load(m, a)
    {
      if InTable(a, Udt(gdt)) {
        UdtInPage(gdt, a);
      }
      if InTable(a, Mdt(gdt)) {
        MdtInPage(gdt, a);
      }
      var m1 := Link(m, EntryAt(gdt, GdtIndex(virt)), Udt(gdt), attr);
      LinkLoad(m, EntryAt(gdt, GdtIndex(virt)), Udt(gdt), attr, a);
      LinkLoad(m1, EntryAt(Udt(gdt), UdtIndex(virt)), Mdt(gdt), attr, a);
    }
  }

  /** The walk after the tables have been created. */
  lemma GrownSteps(m: Words, gdt: bv64, virt: bv64, attr: bv64)
    requires Aligned(gdt) && AttrOk(attr)
    ensures var m' := Grown(m, gdt, virt, attr);
      GdtStep(m', gdt, virt) == At(Udt(gdt)) && UdtStep(m', gdt, virt) == At(Mdt(gdt))
  {
    IndexRange(virt);
    TablesAligned(gdt);
    hide Aligned, InTable, PageOf, EntryAt, Udt, Mdt, GdtIndex, UdtIndex, Link, Load, Present, ToVirt, DirEntryAddr,
      DirectoryEntry, AttrOk, TableAligned;
    var gi, ui := GdtIndex(virt), UdtIndex(virt);
    var m1 := Link(m, EntryAt(gdt, gi), Udt(gdt), attr);
    GdtUdtApart(gdt, gi, ui);
    GdtOutsideMdt(gdt, gi);
    LinkLoad(m, EntryAt(gdt, gi), Udt(gdt), attr, EntryAt(gdt, gi));
    LinkLoad(m1, EntryAt(Udt(gdt), ui), Mdt(gdt), attr, EntryAt(gdt, gi));
    LinkLoad(m1, EntryAt(Udt(gdt), ui), Mdt(gdt), attr, EntryAt(Udt(gdt), ui));
    DirEntry(Udt(gdt), attr);
    DirEntry(Mdt(gdt), attr);
  }

  /** A fresh middle table maps nothing. */
  lemma GrownEmpty(m: Words, gdt: bv64, virt: bv64, attr: bv64, i: bv64)
    requires Aligned(gdt) && i < 512
    ensures Load(Grown(m, gdt, virt, attr), EntryAt(Mdt(gdt), i)) == 0
  {
    IndexRange(virt);
    hide Aligned, InTable, PageOf, EntryAt, Udt, Mdt, GdtIndex, UdtIndex, Link, Load;
    EntryInTable(Mdt(gdt), i);
    UdtMdtApart(gdt, UdtIndex(virt), i);
    var m1 := Link(m, EntryAt(gdt, GdtIndex(virt)), Udt(gdt), attr);
    LinkLoad(m1, EntryAt(Udt(gdt), UdtIndex(virt)), Mdt(gdt), attr, EntryAt(Mdt(gdt), i));
  }

  // ----- the partial map

  /** Creating the tables of a region that had none leaves it empty. */
  lemma GrownRepresents(m: Words, gdt: bv64, region: bv64, virt: bv64, attr: bv64)
    requires Aligned(gdt) && AttrOk(attr) && SameRegion(virt, region)
    ensures Represents(Grown(m, gdt, virt, attr), gdt, region, map[])
  {
    hide Aligned, AttrOk, SameRegion, Grown, Load, GdtIndex, UdtIndex, MdtIndex, EntryAt, Udt, Mdt, Present, PageNumber;
    var m' := Grown(m, gdt, virt, attr);
    GrownSteps(m, gdt, virt, attr);
    RegionIndices(virt, region);
    assert Shaped(m', gdt, region);
    forall v: bv64 | SameRegion(v, region)
      ensures Lookup(m', gdt, v) == Find(map[], PageNumber(v))
    {
      SameTables(m', gdt, region, v);
      IndexRange(v);
      GrownEmpty(m, gdt, virt, attr, MdtIndex(v));
      ZeroAbsent();
    }
  }

  lemma ZeroAbsent()
    ensures !Present(0)
  {
  }

  /** Writing one entry of the middle table changes the map at one page number. */
  lemma StoreRepresents(m: Words, gdt: bv64, region: bv64, virt: bv64, e: bv64, pages: map<Word, Word>)
    requires Represents(m, gdt, region, pages) && SameRegion(virt, region)
    requires UdtStep(m, gdt, region) == At(Mdt(gdt)) && GdtStep(m, gdt, region) == At(Udt(gdt))
    ensures var m' := Store(m, EntryAt(Mdt(gdt), MdtIndex(virt)), e);
      && OnlyPage(m, m', gdt)
      && (Present(e) ==> Represents(m', gdt, region, pages[Word(PageNumber(virt)) := Word(TableEntryAddr(e))]))
      && (!Present(e) ==> Represents(m', gdt, region, pages - {Word(PageNumber(virt))}))
  {
    hide SameRegion, Load, Store, GdtIndex, UdtIndex, MdtIndex, EntryAt, Udt, Mdt, Present, PageNumber, PageOf,
      TableEntryAddr, Find, Lookup,
      Aligned, GdtStep, UdtStep;
    var a := EntryAt(Mdt(gdt), MdtIndex(virt));
    var m' := Store(m, a, e);
    IndexRange(virt);
    MdtEntryPage(gdt, MdtIndex(virt));
    forall b: bv64
      ensures Load(m', b) == if b == a then e else Load(m, b)
    {
      LoadStore(m, a, e, b);
    }
    StoreSteps(m, m', gdt, region, virt, e);
    forall v: bv64 | SameRegion(v, region)
      ensures Lookup(m', gdt, v) == if PageNumber(v) == PageNumber(virt)
        then (if Present(e) then At(TableEntryAddr(e)) else Nowhere) else Lookup(m, gdt, v)
    {
      StoreLookup(m, m', gdt, region, virt, e, v);
    }
    StoreFind(pages, PageNumber(virt), TableEntryAddr(e));
  }

  lemma StoreFind(pages: map<Word, Word>, n: bv64, p: bv64)
    ensures forall k: bv64 :: Find(pages[Word(n) := Word(p)], k) == if k == n then At(p) else Find(pages, k)
    ensures forall k: bv64 :: Find(pages - {Word(n)}, k) == if k == n then Nowhere else Find(pages, k)
  {
    forall k: bv64
      ensures Find(pages[Word(n) := Word(p)], k) == if k == n then At(p) else Find(pages, k)
      ensures Find(pages - {Word(n)}, k) == if k == n then Nowhere else Find(pages, k)
    {
      FindOne(pages, n, p, k);
    }
  }

  lemma FindOne(pages: map<Word, Word>, n: bv64, p: bv64, k: bv64)
    ensures Find(pages[Word(n) := Word(p)], k) == if k == n then At(p) else Find(pages, k)
    ensures Find(pages - {Word(n)}, k) == if k == n then Nowhere else Find(pages, k)
  {
    assert Word(p).bits == p;
    assert Word(k) == Word(n) <==> k == n;
  }

  /** The upper tables are not touched by a write to the middle one. */
  lemma StoreSteps(m: Words, m': Words, gdt: bv64, region: bv64, virt: bv64, e: bv64)
    requires forall b: bv64 :: Load(m', b) == if b == EntryAt(Mdt(gdt), MdtIndex(virt)) then e else Load(m, b)
    requires UdtStep(m, gdt, region) == At(Mdt(gdt)) && GdtStep(m, gdt, region) == At(Udt(gdt))
    ensures UdtStep(m', gdt, region) == At(Mdt(gdt)) && GdtStep(m', gdt, region) == At(Udt(gdt))
  {
    hide Load, EntryAt, Udt, Mdt, GdtIndex, UdtIndex, MdtIndex, Present, ToVirt, DirEntryAddr;
    IndexRange(region);
    IndexRange(virt);
    GdtMdtApart(gdt, GdtIndex(region), MdtIndex(virt));
    UdtMdtApart(gdt, UdtIndex(region), MdtIndex(virt));
  }

  lemma StoreLookup(m: Words, m': Words, gdt: bv64, region: bv64, virt: bv64, e: bv64, v: bv64)
    requires Aligned(gdt) && SameRegion(v, region) && SameRegion(virt, region)
    requires forall b: bv64 :: Load(m', b) == if b == EntryAt(Mdt(gdt), MdtIndex(virt)) then e else Load(m, b)
    requires UdtStep(m, gdt, region) == At(Mdt(gdt)) && GdtStep(m, gdt, region) == At(Udt(gdt))
    ensures Lookup(m', gdt, v) == if PageNumber(v) == PageNumber(virt)
      then (if Present(e) then At(TableEntryAddr(e)) else Nowhere) else Lookup(m, gdt, v)
  {
    hide Load, EntryAt, Udt, Mdt, GdtIndex, UdtIndex, MdtIndex, Present, GdtStep, UdtStep, SameRegion, PageNumber,
      TableEntryAddr, Aligned;
    StoreSteps(m, m', gdt, region, virt, e);
    SameTables(m, gdt, region, v);
    SameTables(m', gdt, region, v);
    IndexRange(v);
    IndexRange(virt);
    RegionTransitive(v, virt, region);
    RegionIndices(v, virt);
    if MdtIndex(v) != MdtIndex(virt) {
      EntryInjective(Mdt(gdt), MdtIndex(v), MdtIndex(virt));
    }
  }

  lemma EntryInjective(t: bv64, i: bv64, j: bv64)
    requires i < 512 && j < 512 && i != j
    ensures EntryAt(t, i) != EntryAt(t, j)
  {
    if EntryAt(t, i) == EntryAt(t, j) {
      SameSlotSameIndex(t, i, j);
    }
  }

  lemma RegionTransitive(v: bv64, w: bv64, region: bv64)
    requires SameRegion(v, region) && SameRegion(w, region)
    ensures SameRegion(v, w)
  {
  }
}
