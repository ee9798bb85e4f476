/** memory/memory.c: the allocator and the operations on a process's address space. */
module PageMemory {
  import opened Paging
  import opened MemoryManager

  /** The page of the address space at `virt`, as a kernel address. */
  function PageAt(pages: map<Word, Word>, virt: bv64): bv64 {
    if Word(PageNumber(virt)) in pages then ToVirt(pages[Word(PageNumber(virt))].bits) else NULL
  }

  predicate Mapped(pages: map<Word, Word>, virt: bv64) {
    Word(PageNumber(virt)) in pages
  }

  function Unmap(pages: map<Word, Word>, virt: bv64): map<Word, Word> {
    pages - {Word(PageNumber(virt))}
  }

  function MapTo(pages: map<Word, Word>, virt: bv64, phy: bv64): map<Word, Word> {
    pages[Word(PageNumber(virt)) := Word(phy)]
  }

  /** A page that free_page hands back to the allocator. */
  predicate Returnable(kernEnd: bv64, p: bv64, free: seq<bv64>) {
    PageOk(kernEnd, p) && p != NULL && p !in free
  }

  /** Words outside two pages are the same. */
  ghost predicate OnlyPages(m: Words, m': Words, p: bv64, q: bv64) {
    forall a: bv64 :: PageOf(a) != p && PageOf(a) != q ==> Load(m', a) == Load(m, a)
  }

  lemma PageFacts(kernEnd: bv64, p: bv64)
    requires PageOk(kernEnd, p)
    ensures Aligned(p) && PageOf(p) == p
  {
  }

  lemma UdtNotNull(kernEnd: bv64, gdt: bv64)
    requires PageOk(kernEnd, gdt) && KERNEL_BASE <= kernEnd
    ensures Udt(gdt) != NULL && Mdt(gdt) != NULL && gdt != NULL
  {
  }

  class Memory {
    /** Where the kernel image ends. */
    const kernEnd: bv64
    var words: Words
    var freeHead: bv64
    ghost var free: seq<bv64>

    ghost predicate Valid()
      reads this
    {
      && KERNEL_BASE <= kernEnd
      && FreeList(words, freeHead, free)
      && (forall p :: p in free ==> PageOk(kernEnd, p))
    }

    /** A page goes to the front of the free list. */
    method Kfree(addr: bv64)
      requires Valid() && (addr != NULL ==> PageOk(kernEnd, addr) && addr !in free)
      modifies this
      ensures Valid() && free == if addr == NULL then old(free) else [addr] + old(free)
      ensures OnlyPage(old(words), words, addr)
    {
      hide FreeList, PageOf, Load;
      if addr == NULL {
        return;
      }
      PageFacts(kernEnd, addr);
      FreeListPush(words, freeHead, free, addr);
      StoreOnly(words, addr, freeHead);
      words := Store(words, addr, freeHead);
      freeHead := addr;
      free := [addr] + free;
    }

    /** The page at the front of the free list, or NULL. */
    method Kalloc() returns (page: bv64)
      requires Valid()
      modifies this`freeHead, this`free
      ensures Valid()
      ensures if old(free) == [] then page == NULL && free == [] else page == old(free)[0] && free == old(free)[1..]
      ensures page != NULL ==> PageOk(kernEnd, page) && page !in free
      ensures page == NULL <==> old(free) == []
    {
      hide PageOk, Load;
      page := freeHead;
      if page != NULL {
        FreeListPop(words, freeHead, free);
        freeHead := Load(words, page);
        free := free[1..];
      }
    }

    /** The upper table for an address, created on demand. */
    method FindGdtEntry(gdt: bv64, virt: bv64, allocNew: bool, attr: bv64) returns (udt: bv64)
      requires Aligned(gdt) && gdt != NULL && Udt(gdt) != NULL && InOnePage(words, gdt, virt)
      modifies this`words
      ensures match GdtStep(old(words), gdt, virt)
        case At(t) => udt == t == Udt(gdt) && words == old(words)
        case Nowhere =>
          if allocNew then udt == Udt(gdt) && words == Link(old(words), EntryAt(gdt, GdtIndex(virt)), Udt(gdt), attr)
          else udt == NULL && words == old(words)
    {
      hide Load, Store, ToVirt, DirEntryAddr, Present, EntryAt, GdtIndex, Udt, Mdt, Aligned, DirectoryEntry,
        ZeroTable, UdtStep;
      udt := NULL;
      if gdt == NULL {
        return;
      }
      var e := Load(words, EntryAt(gdt, GdtIndex(virt)));
      if Present(e) {
        udt := ToVirt(DirEntryAddr(e));
      } else if allocNew {
        udt := Udt(gdt);
        words := ZeroTable(words, udt);
        words := Store(words, EntryAt(gdt, GdtIndex(virt)), DirectoryEntry(udt, attr));
      }
    }

    /** The middle table for an address, created on demand. */
    method FindUdtEntry(gdt: bv64, virt: bv64, allocNew: bool, attr: bv64) returns (mdt: bv64)
      requires Aligned(gdt) && gdt != NULL && Udt(gdt) != NULL && Mdt(gdt) != NULL && InOnePage(words, gdt, virt)
      modifies this`words
      ensures match UdtStep(old(words), gdt, virt)
        case At(t) => mdt == t == Mdt(gdt) && words == old(words)
        case Nowhere =>
          if allocNew then mdt == Mdt(gdt) && words == Extended(old(words), gdt, virt, attr)
          else mdt == NULL && words == old(words)
    {
      hide Load, Store, ToVirt, DirEntryAddr, EntryAt, GdtIndex, UdtIndex, Udt, Mdt, Aligned, DirectoryEntry, ZeroTable;
      mdt := NULL;
      var udt := FindGdtEntry(gdt, virt, allocNew, attr);
      if udt == NULL {
        return;
      }
      UdtSlotAfterLink(old(words), gdt, virt, attr);
      var e := Load(words, EntryAt(udt, UdtIndex(virt)));
      if Present(e) {
        mdt := ToVirt(DirEntryAddr(e));
      } else if allocNew {
        mdt := Mdt(gdt);
        words := ZeroTable(words, mdt);
        words := Store(words, EntryAt(udt, UdtIndex(virt)), DirectoryEntry(mdt, attr));
      }
    }

    /** map_page within one region: the partial map gains one page. */
    method MapPage(gdt: bv64, virt: bv64, phy: bv64, attr: bv64, ghost region: bv64, ghost pages: map<Word, Word>)
      returns (ok: bool)
      requires Valid() && PageOk(kernEnd, gdt) && gdt !in free
      requires Represents(words, gdt, region, pages) && SameRegion(virt, region) && !Mapped(pages, virt)
      requires AlignDown(virt) <= MEMORY_END - PAGE_SIZE
      requires Aligned(phy) && phy <= ToPhy(MEMORY_END) - PAGE_SIZE && AttrOk(attr)
      modifies this`words
      ensures Valid() && ok && Represents(words, gdt, region, MapTo(pages, virt, phy))
      ensures OnlyPage(old(words), words, gdt)
    {
      PageFacts(kernEnd, gdt);
      UdtNotNull(kernEnd, gdt);
      hide Load, Store, Aligned, AttrOk, SameRegion, AlignDown, PageOk, Shaped, PageNumber, UdtStep, Grown, EntryAt,
        MdtIndex, PageEntry, PageOf,
        OnlyPage, FreeList, Find, Represents, Mdt, Udt, MapTo, Mapped;
      var vstart := AlignDown(virt);
      AlignDownSame(virt);
      RegionJoin(vstart, virt, region);
      ShapedAt(words, gdt, region, vstart, pages);
      ghost var before := words;
      var mdt := FindUdtEntry(gdt, vstart, true, attr);
      AfterFind(before, words, gdt, region, vstart, attr, pages);
      if mdt == NULL {
        return false;
      }
      var index := MdtIndex(vstart);
      StoreLeaf(words, gdt, region, vstart, virt, phy, attr, pages);
      ghost var middle := words;
      words := Store(words, EntryAt(mdt, index), PageEntry(phy, attr));
      OnlyPageThen(before, middle, words, gdt);
      FreeListOnlyPage(before, words, freeHead, free, gdt);
      return true;
    }

    /** free_page within one region: the page, if mapped, goes back to the allocator. */
    method FreePage(gdt: bv64, virt: bv64, ghost region: bv64, ghost pages: map<Word, Word>)
      requires Valid() && PageOk(kernEnd, gdt) && gdt !in free && Aligned(virt)
      requires Represents(words, gdt, region, pages) && SameRegion(virt, region)
      requires Mapped(pages, virt) ==> Returnable(kernEnd, PageAt(pages, virt), free) && PageAt(pages, virt) != gdt
      modifies this
      ensures Valid() && Represents(words, gdt, region, Unmap(pages, virt))
      ensures free == if Mapped(pages, virt) then [PageAt(pages, virt)] + old(free) else old(free)
      ensures OnlyPages(old(words), words, gdt, PageAt(pages, virt))
    {
      PageFacts(kernEnd, gdt);
      UdtNotNull(kernEnd, gdt);
      hide Load, Store, Aligned, SameRegion, PageOk, Shaped, PageNumber, UdtStep, EntryAt, MdtIndex, PageOf,
        OnlyPage, OnlyPages, FreeList, Find, Represents, Mdt, Udt, Unmap, Mapped, PageAt, Present, ToVirt,
          TableEntryAddr;
      ShapedAt(words, gdt, region, virt, pages);
      ghost var before := words;
      FreedEntry(before, gdt, region, virt, pages);
      var mdt := FindUdtEntry(gdt, virt, false, 0);
      NothingFreed(before, gdt, region, virt, pages);
      if mdt != NULL {
        var index := MdtIndex(virt);
        var e := Load(words, EntryAt(mdt, index));
        if Present(e) {
          Kfree(ToVirt(TableEntryAddr(e)));
          ClearLeaf(before, words, gdt, region, virt, pages);
          ghost var middle := words;
          words := Store(words, EntryAt(mdt, index), 0);
          FreeListOnlyPage(middle, words, freeHead, free, gdt);
        }
      }
    }

    /** Boot: every aligned page between the kernel's end and the end of memory becomes free. */
    method FreeRegion()
      requires Valid() && free == [] && Room(kernEnd)
      modifies this
      ensures Valid()
      ensures forall p: bv64 :: p in free <==> PageOk(kernEnd, p)
    {
      hide FreeList, PageOk, Load, OnlyPage, AlignUp, Covers, Boundary, Room, NextBoundary;
      var addr := AlignUp(kernEnd);
      AlignUpFacts(kernEnd);
      while Room(addr)
        invariant Valid() && Boundary(kernEnd, addr)
        invariant Covers(kernEnd, addr, free)
        decreases PagesLeft(addr)
      {
        NextPage(kernEnd, addr);
        BoundaryNext(kernEnd, addr);
        CoversMore(kernEnd, addr, free);
        Kfree(addr);
        addr := NextBoundary(addr);
      }
      CoversAll(kernEnd, addr, free);
    }

    /** free_uvm: the pages of an address space, then the page that holds its tables. */
    method FreeUvm(gdt: bv64, ghost pages: map<Word, Word>)
      requires Valid() && PageOk(kernEnd, gdt) && gdt != NULL && gdt !in free
        && Represents(words, gdt, USERSPACE_BASE, pages)
      requires Mapped(pages, USERSPACE_BASE) ==>
        Returnable(kernEnd, PageAt(pages, USERSPACE_BASE), free) && PageAt(pages, USERSPACE_BASE) != gdt
      requires Mapped(pages, USERSPACE_EXT) ==>
        Returnable(kernEnd, PageAt(pages, USERSPACE_EXT), free) && PageAt(pages, USERSPACE_EXT) != gdt
      requires Mapped(pages, USERSPACE_BASE) && Mapped(pages, USERSPACE_EXT) ==>
        PageAt(pages, USERSPACE_BASE) != PageAt(pages, USERSPACE_EXT)
      modifies this
      ensures Valid()
      ensures free == [gdt] + OwnPage(pages, USERSPACE_EXT) + OwnPage(pages, USERSPACE_BASE) + old(free)
      ensures OnlyThree(old(words), words, gdt, PageAt(pages, USERSPACE_BASE), PageAt(pages, USERSPACE_EXT))
    {
      hide FreeList, PageOk, Load, OnlyPage, OnlyPages, OnlyThree, Represents, Mapped, PageAt, PageOf, SameRegion,
        Unmap;
      UserAddresses();
      ghost var before := words;
      FreePage(gdt, USERSPACE_BASE, USERSPACE_BASE, pages);
      UnmapOther(pages);
      ghost var middle := words;
      FreePage(gdt, USERSPACE_EXT, USERSPACE_BASE, Unmap(pages, USERSPACE_BASE));
      ghost var late := words;
      Kfree(gdt);
      OnlyThreeJoin(before, middle, late, words, gdt, PageAt(pages, USERSPACE_BASE), PageAt(pages, USERSPACE_EXT));
    }

    /** The memory of a new process: an empty table page and an environment page. The kernel
        halts in an assertion if there are not two free pages. */
    method NewSpace() returns (gdt: bv64, env: bv64)
      requires Valid() && |free| >= 2
      modifies this
      ensures Valid() && gdt == old(free)[0] && env == old(free)[1] && free == old(free)[2..]
      ensures PageOk(kernEnd, gdt) && PageOk(kernEnd, env) && gdt != env && gdt !in free && env !in free
      ensures Represents(words, gdt, USERSPACE_BASE, map[]) && OnlyPage(old(words), words, gdt)
    {
      hide PageOk, Load, OnlyPage, Represents, FreeList, ZeroTable;
      gdt := Kalloc();
      ghost var before := words;
      env := Kalloc();
      FreePageFacts(kernEnd, gdt);
      ClearedTable(words, gdt);
      words := ZeroTable(words, gdt);
      FreeListOnlyPage(before, words, freeHead, free, gdt);
    }

    /** setup_uvm. `loaded` says whether the program's file could be opened and read in full. On
        failure the table page and the program page go back to the allocator; the environment
        page does not. */
    method SetupUvm(gdt: bv64, env: bv64, loaded: bool) returns (ok: bool)
      requires Valid() && PageOk(kernEnd, gdt) && PageOk(kernEnd, env) && gdt != NULL && gdt != env && gdt !in free
        && env !in free
      requires Represents(words, gdt, USERSPACE_BASE, map[])
      modifies this
      ensures Valid() && ok == (loaded && old(free) != [])
      ensures ok ==> free == old(free)[1..] && Represents(words, gdt, USERSPACE_BASE, UserPages(old(free)[0], env))
      ensures !ok ==> free == [gdt] + old(free)
      ensures OnlyThree(old(words), words, gdt, if old(free) == [] then NULL else old(free)[0], NULL)
    {
      hide FreeList, PageOk, Load, OnlyPage, OnlyPages, OnlyThree, Represents, Mapped, PageAt, PageOf, SameRegion,
        MapTo, Aligned, AttrOk;
      UserAddresses();
      ghost var before, pages := words, map[];
      NothingMapped();
      var page := Kalloc();
      if page != NULL {
        FreePageFacts(kernEnd, page);
        var _ := MapPage(gdt, USERSPACE_BASE, ToPhy(page), USER_ATTRIBUTES, USERSPACE_BASE, map[]);
        pages := MapTo(map[], USERSPACE_BASE, ToPhy(page));
        ProgramMapped(page);
        if loaded {
          FreePageFacts(kernEnd, env);
          ghost var middle := words;
          var _ := MapPage(gdt, USERSPACE_EXT, ToPhy(env), USER_ATTRIBUTES, USERSPACE_BASE, pages);
          OnlyPageThen(before, middle, words, gdt);
          OnlyThreeOne(before, words, gdt, old(free)[0], NULL);
          return true;
        }
      } else {
        OnlyPageSelf(words, gdt);
      }
      ghost var late := words;
      FreeUvm(gdt, pages);
      OnlyThreeThen(before, late, words, gdt, PageAt(pages, USERSPACE_BASE), PageAt(pages, USERSPACE_EXT));
      return false;
    }

    /** copy_uvm, apart from the bytes copied. `found` says whether the program's file could be
        opened. On failure the table page and the program page go back to the allocator; the
        environment page does not. The source's tables are walked, so they must be there. */
    method CopyUvm(gdt: bv64, env: bv64, srcGdt: bv64, found: bool, ghost srcPages: map<Word, Word>) returns (ok: bool)
      requires Valid() && PageOk(kernEnd, gdt) && PageOk(kernEnd, env) && gdt != NULL && gdt != env && gdt !in free
        && env !in free
      requires Represents(words, gdt, USERSPACE_BASE, map[])
      requires PageOk(kernEnd, srcGdt) && srcGdt != gdt && srcGdt !in free
      requires Represents(words, srcGdt, USERSPACE_BASE, srcPages) && Mapped(srcPages, USERSPACE_BASE)
      modifies this
      ensures Valid() && ok == (found && old(free) != [])
      ensures ok ==> free == old(free)[1..] && Represents(words, gdt, USERSPACE_BASE, UserPages(old(free)[0], env))
      ensures !ok ==> free == [gdt] + old(free)
      ensures OnlyThree(old(words), words, gdt, if old(free) == [] then NULL else old(free)[0], NULL)
    {
      hide FreeList, PageOk, Load, OnlyPage, OnlyPages, OnlyThree, Represents, Mapped, PageAt, PageOf, SameRegion,
        MapTo, Aligned, AttrOk,
        Udt, Mdt, InOnePage, UdtStep;
      UserAddresses();
      ghost var before, pages := words, map[];
      NothingMapped();
      var page := Kalloc();
      if page != NULL {
        FreePageFacts(kernEnd, page);
        var _ := MapPage(gdt, USERSPACE_BASE, ToPhy(page), USER_ATTRIBUTES, USERSPACE_BASE, map[]);
        pages := MapTo(map[], USERSPACE_BASE, ToPhy(page));
        ProgramMapped(page);
        SourceStays(before, words, gdt, srcGdt, srcPages);
        UdtNotNull(kernEnd, srcGdt);
        var mdt := FindUdtEntry(srcGdt, USERSPACE_BASE, false, 0);
        if found {
          FreePageFacts(kernEnd, env);
          ghost var middle := words;
          var _ := MapPage(gdt, USERSPACE_EXT, ToPhy(env), USER_ATTRIBUTES, USERSPACE_BASE, pages);
          OnlyPageThen(before, middle, words, gdt);
          OnlyThreeOne(before, words, gdt, old(free)[0], NULL);
          return true;
        }
      } else {
        OnlyPageSelf(words, gdt);
      }
      ghost var late := words;
      FreeUvm(gdt, pages);
      OnlyThreeThen(before, late, words, gdt, PageAt(pages, USERSPACE_BASE), PageAt(pages, USERSPACE_EXT));
      return false;
    }
  }

  lemma StoreOnly(m: Words, a: bv64, v: bv64)
    requires PageOf(a) == a
    ensures OnlyPage(m, Store(m, a, v), a)
  {
    hide PageOf, Load, Store;
    forall b: bv64 | PageOf(b) != a
      ensures Load(Store(m, a, v), b) == Load(m, b)
    {
      LoadStore(m, a, v, b);
    }
  }

  /** A fresh upper table is empty. */
  lemma UdtSlotAfterLink(m: Words, gdt: bv64, virt: bv64, attr: bv64)
    ensures !Present(Load(Link(m, EntryAt(gdt, GdtIndex(virt)), Udt(gdt), attr), EntryAt(Udt(gdt), UdtIndex(virt))))
  {
    IndexRange(virt);
    hide Load, EntryAt, GdtIndex, UdtIndex, Udt, Present, Link, InTable;
    LinkLoad(m, EntryAt(gdt, GdtIndex(virt)), Udt(gdt), attr, EntryAt(Udt(gdt), UdtIndex(virt)));
    GdtUdtApart(gdt, GdtIndex(virt), UdtIndex(virt));
    EntryInTable(Udt(gdt), UdtIndex(virt));
    ZeroAbsent();
  }

  lemma RegionJoin(v: bv64, w: bv64, region: bv64)
    requires SameRegion(v, w) && SameRegion(w, region)
    ensures SameRegion(v, region)
  {
  }

  lemma ShapedAt(m: Words, gdt: bv64, region: bv64, virt: bv64, pages: map<Word, Word>)
    requires Represents(m, gdt, region, pages) && SameRegion(virt, region)
    ensures Shaped(m, gdt, virt) && GdtStep(m, gdt, virt) == GdtStep(m, gdt, region)
    ensures UdtStep(m, gdt, virt) == UdtStep(m, gdt, region) && Aligned(gdt)
    ensures UdtStep(m, gdt, region) == Nowhere ==> GdtStep(m, gdt, region) == Nowhere
  {
    SameTables(m, gdt, region, virt);
    hide SameRegion, Aligned, GdtStep, Lookup, Find;
  }

  /** After the walk that creates tables on demand they exist and stand for the same map. */
  lemma AfterFind(m: Words, m': Words, gdt: bv64, region: bv64, virt: bv64, attr: bv64, pages: map<Word, Word>)
    requires Represents(m, gdt, region, pages) && SameRegion(virt, region) && AttrOk(attr)
    requires m' == if UdtStep(m, gdt, virt) == Nowhere then Grown(m, gdt, virt, attr) else m
    ensures Represents(m', gdt, region, pages) && OnlyPage(m, m', gdt)
    ensures UdtStep(m', gdt, region) == At(Mdt(gdt)) && GdtStep(m', gdt, region) == At(Udt(gdt))
  {
    hide SameRegion, Aligned, GdtStep, UdtStep, Grown, AttrOk, Load, PageOf, Mdt, Udt, Represents, OnlyPage, Find;
    ShapedAt(m, gdt, region, virt, pages);
    if UdtStep(m, gdt, virt) == Nowhere {
      GrownRepresents(m, gdt, region, virt, attr);
      GrownOnlyPage(m, gdt, virt, attr);
      GrownSteps(m, gdt, virt, attr);
      ShapedAt(m', gdt, region, virt, map[]);
      EmptyRegion(m, gdt, region, pages);
      RepresentsSame(m', gdt, region, map[], pages);
    } else {
      TablesThere(m, gdt, region, pages);
      OnlyPageSelf(m, gdt);
    }
  }

  lemma OnlyPageSelf(m: Words, p: bv64)
    ensures OnlyPage(m, m, p)
  {
    hide PageOf, Load;
  }

  lemma TablesThere(m: Words, gdt: bv64, region: bv64, pages: map<Word, Word>)
    requires Represents(m, gdt, region, pages) && UdtStep(m, gdt, region) != Nowhere
    ensures UdtStep(m, gdt, region) == At(Mdt(gdt)) && GdtStep(m, gdt, region) == At(Udt(gdt))
  {
    hide SameRegion, Aligned, GdtStep, Lookup, Find, Mdt, Udt;
  }

  lemma RepresentsSame(m: Words, gdt: bv64, region: bv64, p: map<Word, Word>, q: map<Word, Word>)
    requires Represents(m, gdt, region, p)
    requires forall v: bv64 :: SameRegion(v, region) ==> Find(q, PageNumber(v)) == Find(p, PageNumber(v))
    ensures Represents(m, gdt, region, q)
  {
    hide SameRegion, Aligned, Shaped, Lookup, Find, PageNumber;
  }

  /** Without tables nothing is mapped in the region. */
  lemma EmptyRegion(m: Words, gdt: bv64, region: bv64, pages: map<Word, Word>)
    requires Represents(m, gdt, region, pages) && UdtStep(m, gdt, region) == Nowhere
    ensures forall v: bv64 :: SameRegion(v, region) ==> Find(pages, PageNumber(v)) == Find(map[], PageNumber(v))
  {
    hide SameRegion, Aligned, GdtStep, UdtStep, PageNumber;
    forall v: bv64 | SameRegion(v, region)
      ensures Find(pages, PageNumber(v)) == Find(map[], PageNumber(v))
    {
      SameTables(m, gdt, region, v);
      assert Lookup(m, gdt, v) == Find(pages, PageNumber(v));
    }
  }

  lemma StoreLeaf(m: Words, gdt: bv64, region: bv64, vstart: bv64, virt: bv64, phy: bv64, attr: bv64,
                  pages: map<Word, Word>)
    requires Represents(m, gdt, region, pages) && SameRegion(vstart, region) && PageNumber(vstart) == PageNumber(virt)
    requires UdtStep(m, gdt, region) == At(Mdt(gdt)) && GdtStep(m, gdt, region) == At(Udt(gdt))
    requires Aligned(phy) && AttrOk(attr)
    ensures var m' := Store(m, EntryAt(Mdt(gdt), MdtIndex(vstart)), PageEntry(phy, attr));
      Represents(m', gdt, region, MapTo(pages, virt, phy)) && OnlyPage(m, m', gdt)
  {
    hide SameRegion, Aligned, GdtStep, UdtStep, AttrOk, Load, Store, PageOf, Mdt, Udt, PageNumber, EntryAt, MdtIndex,
      PageEntry, TableEntryAddr,
      Represents, OnlyPage, Present;
    LeafEntry(phy, attr);
    StoreRepresents(m, gdt, region, vstart, PageEntry(phy, attr), pages);
  }

  lemma OnlyPageThen(a: Words, b: Words, c: Words, page: bv64)
    requires OnlyPage(a, b, page) && OnlyPage(b, c, page)
    ensures OnlyPage(a, c, page)
  {
    hide PageOf, Load;
  }

  /** What the walk finds for a mapped page: the entry that decodes to it. */
  lemma FreedEntry(m: Words, gdt: bv64, region: bv64, virt: bv64, pages: map<Word, Word>)
    requires Represents(m, gdt, region, pages) && SameRegion(virt, region)
    ensures Mapped(pages, virt) ==>
      && UdtStep(m, gdt, region) == At(Mdt(gdt)) && GdtStep(m, gdt, region) == At(Udt(gdt))
      && Present(Load(m, EntryAt(Mdt(gdt), MdtIndex(virt))))
      && ToVirt(TableEntryAddr(Load(m, EntryAt(Mdt(gdt), MdtIndex(virt))))) == PageAt(pages, virt)
    ensures UdtStep(m, gdt, region) != Nowhere && Present(Load(m, EntryAt(Mdt(gdt), MdtIndex(virt)))) ==>
      Mapped(pages, virt)
  {
    ShapedAt(m, gdt, region, virt, pages);
    hide SameRegion, Aligned, GdtStep, UdtStep, Load, Mdt, Udt, PageNumber, EntryAt, MdtIndex, TableEntryAddr,
      Present, ToVirt;
    assert Lookup(m, gdt, virt) == Find(pages, PageNumber(virt));
  }

  lemma NothingFreed(m: Words, gdt: bv64, region: bv64, virt: bv64, pages: map<Word, Word>)
    requires Represents(m, gdt, region, pages)
    ensures !Mapped(pages, virt) ==>
      Represents(m, gdt, region, Unmap(pages, virt)) && OnlyPages(m, m, gdt, PageAt(pages, virt))
  {
    if !Mapped(pages, virt) {
      assert Unmap(pages, virt) == pages;
    }
    hide Represents, PageOf;
  }

  /** Clearing the entry after the page itself has been written to. */
  lemma ClearLeaf(m: Words, m1: Words, gdt: bv64, region: bv64, virt: bv64, pages: map<Word, Word>)
    requires Represents(m, gdt, region, pages) && SameRegion(virt, region) && Mapped(pages, virt)
    requires OnlyPage(m, m1, PageAt(pages, virt)) && PageAt(pages, virt) != gdt
    ensures var m' := Store(m1, EntryAt(Mdt(gdt), MdtIndex(virt)), 0);
      Represents(m', gdt, region, Unmap(pages, virt)) && OnlyPage(m1, m', gdt)
        && OnlyPages(m, m', gdt, PageAt(pages, virt))
  {
    FreedEntry(m, gdt, region, virt, pages);
    ZeroAbsent();
    hide SameRegion, Aligned, GdtStep, UdtStep, Load, Store, PageOf, Mdt, Udt, PageNumber, EntryAt, MdtIndex,
      TableEntryAddr, Represents, Present,
      PageAt, OnlyPage, OnlyPages, Mapped, ToVirt;
    OnlyPageKeeps(m, m1, PageAt(pages, virt), gdt);
    RepresentsFrame(m, m1, gdt, region, pages);
    StepsFrame(m, m1, gdt, region, pages);
    StoreRepresents(m1, gdt, region, virt, 0, pages);
    OnlyPagesJoin(m, m1, Store(m1, EntryAt(Mdt(gdt), MdtIndex(virt)), 0), PageAt(pages, virt), gdt);
  }

  lemma StepsFrame(m: Words, m': Words, gdt: bv64, region: bv64, pages: map<Word, Word>)
    requires Represents(m, gdt, region, pages)
    requires forall a: bv64 :: PageOf(a) == gdt ==> Load(m', a) == Load(m, a)
    ensures GdtStep(m', gdt, region) == GdtStep(m, gdt, region) && UdtStep(m', gdt, region) == UdtStep(m, gdt, region)
  {
    hide PageOf, Aligned, SameRegion, Lookup, Find, Load, GdtStep, UdtStep, Shaped;
    RegionSelf(region);
    UdtStepFrame(m, m', gdt, region, region);
  }

  lemma OnlyPagesJoin(a: Words, b: Words, c: Words, p: bv64, gdt: bv64)
    requires OnlyPage(a, b, p) && OnlyPage(b, c, gdt)
    ensures OnlyPages(a, c, gdt, p)
  {
    hide PageOf, Load;
  }

  // ----- user address spaces

  /** Words outside three pages are the same. */
  ghost predicate OnlyThree(m: Words, m': Words, p: bv64, q: bv64, r: bv64) {
    forall a: bv64 :: PageOf(a) != p && PageOf(a) != q && PageOf(a) != r ==> Load(m', a) == Load(m, a)
  }

  function OwnPage(pages: map<Word, Word>, virt: bv64): seq<bv64> {
    if Mapped(pages, virt) then [PageAt(pages, virt)] else []
  }

  /** A user address space: the program page and the environment page. */
  function UserPages(program: bv64, env: bv64): map<Word, Word> {
    MapTo(MapTo(map[], USERSPACE_BASE, ToPhy(program)), USERSPACE_EXT, ToPhy(env))
  }

  lemma UserAddresses()
    ensures SameRegion(USERSPACE_BASE, USERSPACE_BASE) && SameRegion(USERSPACE_EXT, USERSPACE_BASE)
    ensures Aligned(USERSPACE_BASE) && Aligned(USERSPACE_EXT) && AttrOk(USER_ATTRIBUTES)
    ensures AlignDown(USERSPACE_BASE) <= MEMORY_END - PAGE_SIZE && AlignDown(USERSPACE_EXT) <= MEMORY_END - PAGE_SIZE
  {
  }

  lemma UnmapOther(pages: map<Word, Word>)
    ensures var rest := Unmap(pages, USERSPACE_BASE);
      && (Mapped(rest, USERSPACE_EXT) <==> Mapped(pages, USERSPACE_EXT))
      && PageAt(rest, USERSPACE_EXT) == PageAt(pages, USERSPACE_EXT)
  {
    UserPageNumbers();
    hide PageNumber;
  }

  lemma UserPageNumbers()
    ensures PageNumber(USERSPACE_BASE) != PageNumber(USERSPACE_EXT)
  {
  }

  lemma NothingMapped()
    ensures !Mapped(map[], USERSPACE_BASE) && !Mapped(map[], USERSPACE_EXT)
    ensures PageAt(map[], USERSPACE_BASE) == NULL && PageAt(map[], USERSPACE_EXT) == NULL
  {
  }

  lemma PhyRoundTrip(p: bv64)
    ensures ToVirt(ToPhy(p)) == p
  {
  }

  lemma ProgramMapped(page: bv64)
    ensures var pages := MapTo(map[], USERSPACE_BASE, ToPhy(page));
      && Mapped(pages, USERSPACE_BASE) && PageAt(pages, USERSPACE_BASE) == page
      && !Mapped(pages, USERSPACE_EXT) && PageAt(pages, USERSPACE_EXT) == NULL
  {
    UserPageNumbers();
    PhyRoundTrip(page);
    hide PageNumber, ToPhy, ToVirt;
    assert Word(ToPhy(page)).bits == ToPhy(page);
  }

  /** The pages of a user address space are the two it was given. */
  lemma UserPagesAre(program: bv64, env: bv64)
    ensures var pages := UserPages(program, env);
      && OwnPage(pages, USERSPACE_BASE) == [program] && OwnPage(pages, USERSPACE_EXT) == [env]
  {
    UserPageNumbers();
    PhyRoundTrip(program);
    PhyRoundTrip(env);
    hide PageNumber, ToPhy, ToVirt;
    assert Word(ToPhy(program)).bits == ToPhy(program) && Word(ToPhy(env)).bits == ToPhy(env);
  }

  lemma FreePageFacts(kernEnd: bv64, p: bv64)
    requires PageOk(kernEnd, p) && KERNEL_BASE <= kernEnd
    ensures Aligned(p) && PageOf(p) == p && Aligned(ToPhy(p)) && ToPhy(p) <= ToPhy(MEMORY_END) - PAGE_SIZE && p != NULL
  {
  }

  lemma SourceStays(m: Words, m': Words, gdt: bv64, srcGdt: bv64, srcPages: map<Word, Word>)
    requires Represents(m, srcGdt, USERSPACE_BASE, srcPages) && OnlyPage(m, m', gdt) && gdt != srcGdt
    ensures Represents(m', srcGdt, USERSPACE_BASE, srcPages) && InOnePage(m', srcGdt, USERSPACE_BASE) && Aligned(srcGdt)
  {
    OnlyPageKeeps(m, m', gdt, srcGdt);
    hide PageOf, Load, Lookup, Find;
    RepresentsFrame(m, m', srcGdt, USERSPACE_BASE, srcPages);
  }

  lemma OnlyThreeJoin(a: Words, b: Words, c: Words, d: Words, gdt: bv64, p: bv64, q: bv64)
    requires OnlyPages(a, b, gdt, p) && OnlyPages(b, c, gdt, q) && OnlyPage(c, d, gdt)
    ensures OnlyThree(a, d, gdt, p, q)
  {
    hide PageOf, Load;
  }

  lemma OnlyThreeThen(a: Words, b: Words, c: Words, gdt: bv64, p: bv64, q: bv64)
    requires OnlyPage(a, b, gdt) && OnlyThree(b, c, gdt, p, q)
    ensures OnlyThree(a, c, gdt, p, q)
  {
    hide PageOf, Load;
  }

  lemma OnlyThreeOne(a: Words, b: Words, gdt: bv64, p: bv64, q: bv64)
    requires OnlyPage(a, b, gdt)
    ensures OnlyThree(a, b, gdt, p, q)
  {
    hide PageOf, Load;
  }

  /** A cleared top table maps nothing. */
  lemma ClearedTable(m: Words, gdt: bv64)
    requires Aligned(gdt)
    ensures Represents(ZeroTable(m, gdt), gdt, USERSPACE_BASE, map[]) && OnlyPage(m, ZeroTable(m, gdt), gdt)
  {
    hide PageOf, Load, ZeroTable, InTable, EntryAt, GdtIndex, Present, SameRegion, PageNumber, Aligned;
    var m' := ZeroTable(m, gdt);
    forall v: bv64
      ensures GdtStep(m', gdt, v) == Nowhere
    {
      IndexRange(v);
      EntryInTable(gdt, GdtIndex(v));
      ZeroTableLoad(m, gdt, EntryAt(gdt, GdtIndex(v)));
      ZeroAbsent();
    }
    forall a: bv64 | PageOf(a) != gdt
      ensures Load(m', a) == Load(m, a)
    {
      ZeroTableLoad(m, gdt, a);
      if InTable(a, gdt) {
        GdtInPage(gdt, a);
      }
    }
  }

  // ----- boot

  function AlignUp(a: bv64): bv64 {
    ((a + PAGE_SIZE - 1) >> 21) << 21
  }

  lemma AlignUpAligned(a: bv64)
    ensures Aligned(AlignUp(a))
  {
  }

  lemma AlignUpNotBelow(a: bv64)
    requires KERNEL_BASE <= a && a <= MEMORY_END
    ensures a <= AlignUp(a)
  {
  }

  lemma AlignUpNotPast(a: bv64)
    requires KERNEL_BASE <= a && a <= MEMORY_END
    ensures AlignUp(a) <= MEMORY_END
  {
  }

  /** No page lies between an address and the next page boundary. */
  lemma NothingBetween(a: bv64, p: bv64)
    requires KERNEL_BASE <= a && a <= MEMORY_END && Aligned(p) && a <= p && p <= MEMORY_END
    ensures !(p < AlignUp(a))
  {
  }

  lemma NextAligned(a: bv64)
    requires Aligned(a)
    ensures Aligned(a + PAGE_SIZE)
  {
  }

  lemma NextAbove(a: bv64)
    requires a <= MEMORY_END - PAGE_SIZE
    ensures a < a + PAGE_SIZE && a + PAGE_SIZE <= MEMORY_END
  {
  }

  /** The position of a kernel page, and the page at a position. */
  function Position(a: bv64): bv64 {
    (a >> 21) & 0x1ff
  }

  function PageAddress(i: bv64): bv64 {
    KERNEL_BASE | (i << 21)
  }

  lemma PositionOf(a: bv64)
    requires Aligned(a) && KERNEL_BASE <= a && a <= MEMORY_END
    ensures a == PageAddress(Position(a)) && Position(a) < 0x1ff
  {
  }

  predicate Before(a: bv64, b: bv64) {
    a < b
  }

  lemma PositionsInOrder(i: bv64, j: bv64)
    requires i < 0x200 && j < 0x200
    ensures Before(PageAddress(i), PageAddress(j)) <==> Before(i, j)
  {
  }

  lemma NextPosition(i: bv64)
    requires i < 0x1ff
    ensures PageAddress(i) + PAGE_SIZE == PageAddress(i + 1) && i + 1 < 0x200
  {
  }

  lemma OneApart(i: bv64, j: bv64)
    requires i < 0x1ff && j < 0x1ff
    ensures Before(i, j + 1) <==> Before(i, j) || i == j
  {
  }

  lemma NextPositionApart(i: bv64, j: bv64)
    requires i < 0x1ff && j < 0x1ff
    ensures Before(PageAddress(j), PageAddress(i) + PAGE_SIZE) <==> Before(PageAddress(j), PageAddress(i)) || j == i
  {
    hide PageAddress, Before;
    NextPosition(i);
    PositionsInOrder(j, i + 1);
    PositionsInOrder(j, i);
    OneApart(j, i);
  }

  /** The page after the next boundary is the very next one. */
  lemma NothingWithin(a: bv64, p: bv64)
    requires Aligned(a) && KERNEL_BASE <= a && a <= MEMORY_END
    requires Aligned(p) && KERNEL_BASE <= p && p <= MEMORY_END
    ensures Before(p, a + PAGE_SIZE) <==> Before(p, a) || p == a
  {
    hide Aligned, Position, PageAddress, Before;
    PositionOf(a);
    PositionOf(p);
    NextPositionApart(Position(a), Position(p));
  }

  lemma PageOkIs(kernEnd: bv64, p: bv64)
    ensures PageOk(kernEnd, p) <==> Aligned(p) && kernEnd <= p && p <= MEMORY_END - PAGE_SIZE
  {
  }

  predicate PageBelow(kernEnd: bv64, addr: bv64, p: bv64) {
    PageOk(kernEnd, p) && Before(p, addr)
  }

  /** There is a whole page from an address on. */
  predicate Room(addr: bv64) {
    addr <= MEMORY_END - PAGE_SIZE
  }

  function NextBoundary(addr: bv64): bv64 {
    addr + PAGE_SIZE
  }

  predicate Boundary(kernEnd: bv64, addr: bv64) {
    Aligned(addr) && kernEnd <= addr && addr <= MEMORY_END
  }

  function Remaining(addr: bv64): bv64 {
    MEMORY_END - addr
  }

  lemma AlignUpFacts(a: bv64)
    requires KERNEL_BASE <= a && Room(a)
    ensures Boundary(a, AlignUp(a)) && Covers(a, AlignUp(a), [])
  {
    hide AlignUp, Aligned, PageOk;
    AlignUpAligned(a);
    AlignUpNotBelow(a);
    AlignUpNotPast(a);
    forall p: bv64
      ensures !PageBelow(a, AlignUp(a), p)
    {
      PageOkIs(a, p);
      if PageOk(a, p) {
        NothingBetween(a, p);
      }
    }
  }

  /** The number of pages from a boundary to the end of memory. */
  function PagesLeft(addr: bv64): nat
    decreases Remaining(addr)
  {
    if Room(addr) then
      NextRemaining(addr);
      1 + PagesLeft(NextBoundary(addr))
    else 0
  }

  lemma NextRemaining(addr: bv64)
    requires Room(addr)
    ensures Remaining(NextBoundary(addr)) < Remaining(addr)
  {
  }

  lemma NextPage(kernEnd: bv64, addr: bv64)
    requires KERNEL_BASE <= kernEnd && Boundary(kernEnd, addr) && Room(addr)
    ensures PageOk(kernEnd, addr) && addr != NULL
  {
    hide Aligned, PageOk;
    PageOkIs(kernEnd, addr);
  }

  lemma BoundaryNext(kernEnd: bv64, addr: bv64)
    requires Boundary(kernEnd, addr) && Room(addr)
    ensures Boundary(kernEnd, NextBoundary(addr))
  {
    hide Aligned;
    NextAligned(addr);
    NextAbove(addr);
  }

  lemma OneMore(kernEnd: bv64, addr: bv64, p: bv64)
    requires PageOk(kernEnd, addr) && KERNEL_BASE <= kernEnd
    ensures PageBelow(kernEnd, addr + PAGE_SIZE, p) <==> PageBelow(kernEnd, addr, p) || p == addr
  {
    hide Aligned, PageOk;
    if PageOk(kernEnd, p) {
      PageRange(kernEnd, addr);
      PageRange(kernEnd, p);
      NothingWithin(addr, p);
    }
  }

  lemma PageRange(kernEnd: bv64, p: bv64)
    requires PageOk(kernEnd, p) && KERNEL_BASE <= kernEnd
    ensures Aligned(p) && KERNEL_BASE <= p && p <= MEMORY_END
  {
  }

  lemma OneMorePage(kernEnd: bv64, addr: bv64)
    requires PageOk(kernEnd, addr) && KERNEL_BASE <= kernEnd
    ensures !PageBelow(kernEnd, addr, addr)
    ensures forall p: bv64 :: PageBelow(kernEnd, addr + PAGE_SIZE, p) <==> PageBelow(kernEnd, addr, p) || p == addr
  {
    hide Aligned, PageOk;
    forall p: bv64
      ensures PageBelow(kernEnd, addr + PAGE_SIZE, p) <==> PageBelow(kernEnd, addr, p) || p == addr
    {
      OneMore(kernEnd, addr, p);
    }
  }

  /** The free list holds exactly the pages below an address. */
  ghost predicate Covers(kernEnd: bv64, addr: bv64, free: seq<bv64>) {
    forall p: bv64 :: p in free <==> PageBelow(kernEnd, addr, p)
  }

  lemma CoversMore(kernEnd: bv64, addr: bv64, free: seq<bv64>)
    requires PageOk(kernEnd, addr) && KERNEL_BASE <= kernEnd && Covers(kernEnd, addr, free)
    ensures addr !in free && Covers(kernEnd, NextBoundary(addr), [addr] + free)
  {
    hide PageOk, PageBelow, PAGE_SIZE, KERNEL_BASE;
    OneMorePage(kernEnd, addr);
  }

  lemma CoversAll(kernEnd: bv64, addr: bv64, free: seq<bv64>)
    requires !Room(addr) && Covers(kernEnd, addr, free)
    ensures forall p: bv64 :: p in free <==> PageOk(kernEnd, p)
  {
    AllPages(kernEnd, addr);
    hide PageOk, PageBelow;
  }

  lemma AllPages(kernEnd: bv64, addr: bv64)
    requires addr > MEMORY_END - PAGE_SIZE
    ensures forall p: bv64 :: PageOk(kernEnd, p) <==> PageBelow(kernEnd, addr, p)
  {
    hide Aligned, PageOk;
    forall p: bv64
      ensures PageOk(kernEnd, p) <==> PageBelow(kernEnd, addr, p)
    {
      PageOkIs(kernEnd, p);
    }
  }
}
