/** Words of physical memory and the three-level page tables of memory/memory.c. Addresses
    and table entries are 64-bit words with the source's own bit arithmetic. */
module Paging {
  const PAGE_SIZE: bv64 := 0x20_0000
  const KERNEL_BASE: bv64 := 0xffff_0000_0000_0000
  const USERSPACE_BASE: bv64 := 0x40_0000
  const USERSPACE_EXT: bv64 := 0x60_0000
  const MEMORY_END: bv64 := 0xffff_0000_3000_0000
  const TABLE_BYTES: bv64 := 0x1000

  const ENTRY_VALID: bv64 := 0x1
  const TABLE_ENTRY: bv64 := 0x2
  const PAGE_ENTRY: bv64 := 0x0
  const NORMAL_MEMORY: bv64 := 0x4
  const USER_MODE: bv64 := 0x40
  const ENTRY_ACCESSED: bv64 := 0x400
  const USER_ATTRIBUTES: bv64 := ENTRY_VALID | USER_MODE | NORMAL_MEMORY | ENTRY_ACCESSED

  /** The result of a table walk. */
  datatype Place = Nowhere | At(address: bv64)

  datatype Word = Word(bits: bv64)

  /** Memory by word address; a word that was never written is zero. */
  type Words = map<Word, Word>

  function Load(m: Words, a: bv64): bv64 {
    if Word(a) in m then m[Word(a)].bits else 0
  }

  function Store(m: Words, a: bv64, v: bv64): Words {
    m[Word(a) := Word(v)]
  }

  lemma LoadStore(m: Words, a: bv64, v: bv64, b: bv64)
    ensures Load(Store(m, a, v), b) == if a == b then v else Load(m, b)
  {
  }

  function PageOf(a: bv64): bv64 {
    a & 0xffff_ffff_ffe0_0000
  }

  predicate Aligned(a: bv64) {
    a & 0x1f_ffff == 0
  }

  function ToVirt(phy: bv64): bv64 {
    phy + KERNEL_BASE
  }

  function ToPhy(virt: bv64): bv64 {
    virt - KERNEL_BASE
  }

  function AlignDown(a: bv64): bv64 {
    (a >> 21) << 21
  }

  function DirEntryAddr(e: bv64): bv64 {
    e & 0xffff_ffff_ffff_f000
  }

  function TableEntryAddr(e: bv64): bv64 {
    e & 0xffff_ffff_ffe0_0000
  }

  predicate Present(e: bv64) {
    e & ENTRY_VALID != 0
  }

  function GdtIndex(virt: bv64): bv64 {
    (virt >> 39) & 0x1ff
  }

  function UdtIndex(virt: bv64): bv64 {
    (virt >> 30) & 0x1ff
  }

  function MdtIndex(virt: bv64): bv64 {
    (virt >> 21) & 0x1ff
  }

  /** The address of entry `index` of a table. */
  function EntryAt(table: bv64, index: bv64): bv64 {
    table + (index << 3)
  }

  function Udt(gdt: bv64): bv64 {
    gdt + 0x1000
  }

  function Mdt(gdt: bv64): bv64 {
    gdt + 0x2000
  }

  // ----- the walk

  function GdtStep(m: Words, gdt: bv64, virt: bv64): Place {
    var e := Load(m, EntryAt(gdt, GdtIndex(virt)));
    if Present(e) then At(ToVirt(DirEntryAddr(e))) else Nowhere
  }

  function UdtStep(m: Words, gdt: bv64, virt: bv64): Place {
    match GdtStep(m, gdt, virt)
    case Nowhere => Nowhere
    case At(udt) =>
      var e := Load(m, EntryAt(udt, UdtIndex(virt)));
      if Present(e) then At(ToVirt(DirEntryAddr(e))) else Nowhere
  }

  /** The physical page that a virtual address is mapped to. */
  function Lookup(m: Words, gdt: bv64, virt: bv64): Place {
    match UdtStep(m, gdt, virt)
    case Nowhere => Nowhere
    case At(mdt) =>
      var e := Load(m, EntryAt(mdt, MdtIndex(virt)));
      if Present(e) then At(TableEntryAddr(e)) else Nowhere
  }

  // ----- the tables of one 1 GB region

  predicate SameRegion(v: bv64, w: bv64) {
    v >> 30 == w >> 30
  }

  function PageNumber(v: bv64): bv64 {
    v >> 21
  }

  /** The lower tables, once they exist, sit at fixed places after the top one in its page. */
  predicate Shaped(m: Words, gdt: bv64, region: bv64) {
    GdtStep(m, gdt, region) == Nowhere ||
    (GdtStep(m, gdt, region) == At(Udt(gdt)) && UdtStep(m, gdt, region) == At(Mdt(gdt)))
  }

  function Find(pages: map<Word, Word>, n: bv64): Place {
    if Word(n) in pages then At(pages[Word(n)].bits) else Nowhere
  }

  /** The tables in page `gdt` stand for the partial map `pages` from page numbers to
      physical pages, over the region around `region`. */
  ghost predicate Represents(m: Words, gdt: bv64, region: bv64, pages: map<Word, Word>) {
    && Aligned(gdt) && Shaped(m, gdt, region)
    && (forall v: bv64 :: SameRegion(v, region) ==> Lookup(m, gdt, v) == Find(pages, PageNumber(v)))
  }

  /** Only words of page `p` differ. */
  ghost predicate OnlyPage(m: Words, m': Words, p: bv64) {
    forall a: bv64 :: PageOf(a) != p ==> Load(m', a) == Load(m, a)
  }

  // ----- bit arithmetic

  /** The attribute bits in use: valid, normal memory, user mode, accessed. */
  predicate AttrOk(attr: bv64) {
    attr & !USER_ATTRIBUTES == 0 && attr & ENTRY_VALID != 0
  }

  predicate TableAligned(table: bv64) {
    table & 0xfff == 0
  }

  function DirectoryEntry(table: bv64, attr: bv64): bv64 {
    ToPhy(table) | attr | TABLE_ENTRY
  }

  function PageEntry(phy: bv64, attr: bv64): bv64 {
    phy | attr | PAGE_ENTRY
  }

  /** A leaf entry decodes to the page it was made from, for every aligned page. */
  lemma LeafEntry(phy: bv64, attr: bv64)
    requires Aligned(phy) && AttrOk(attr)
    ensures TableEntryAddr(PageEntry(phy, attr)) == phy && Present(PageEntry(phy, attr))
  {
  }

  /** A directory entry decodes to the table it was made from. */
  lemma DirEntry(table: bv64, attr: bv64)
    requires TableAligned(table) && AttrOk(attr)
    ensures ToVirt(DirEntryAddr(DirectoryEntry(table, attr))) == table && Present(DirectoryEntry(table, attr))
  {
  }

  lemma TablesAligned(gdt: bv64)
    requires Aligned(gdt)
    ensures TableAligned(Udt(gdt)) && TableAligned(Mdt(gdt))
  {
  }

  lemma GdtEntryPage(gdt: bv64, i: bv64)
    requires Aligned(gdt) && i < 512
    ensures PageOf(EntryAt(gdt, i)) == gdt
  {
  }

  lemma UdtEntryPage(gdt: bv64, i: bv64)
    requires Aligned(gdt) && i < 512
    ensures PageOf(EntryAt(Udt(gdt), i)) == gdt
  {
  }

  lemma MdtEntryPage(gdt: bv64, i: bv64)
    requires Aligned(gdt) && i < 512
    ensures PageOf(EntryAt(Mdt(gdt), i)) == gdt
  {
  }

  /** All three tables lie in the page of the top one. */
  lemma EntryPages(gdt: bv64, i: bv64)
    requires Aligned(gdt) && i < 512
    ensures PageOf(EntryAt(gdt, i)) == gdt && PageOf(EntryAt(Udt(gdt), i)) == gdt && PageOf(EntryAt(Mdt(gdt), i)) == gdt
  {
    hide PageOf, EntryAt, Aligned, Udt, Mdt;
    GdtEntryPage(gdt, i);
    UdtEntryPage(gdt, i);
    MdtEntryPage(gdt, i);
  }

  lemma SameSlotSameIndex(t: bv64, i: bv64, j: bv64)
    requires i < 512 && j < 512 && EntryAt(t, i) == EntryAt(t, j)
    ensures i == j
  {
  }

  lemma GdtUdtApart(gdt: bv64, i: bv64, j: bv64)
    requires i < 512 && j < 512
    ensures EntryAt(gdt, i) != EntryAt(Udt(gdt), j)
  {
  }

  lemma GdtMdtApart(gdt: bv64, i: bv64, j: bv64)
    requires i < 512 && j < 512
    ensures EntryAt(gdt, i) != EntryAt(Mdt(gdt), j)
  {
  }

  lemma UdtMdtApart(gdt: bv64, i: bv64, j: bv64)
    requires i < 512 && j < 512
    ensures EntryAt(Udt(gdt), i) != EntryAt(Mdt(gdt), j)
  {
  }

  lemma IndexRange(v: bv64)
    ensures GdtIndex(v) < 512 && UdtIndex(v) < 512 && MdtIndex(v) < 512
  {
  }

  lemma RegionGdt(v: bv64, w: bv64)
    requires SameRegion(v, w)
    ensures GdtIndex(v) == GdtIndex(w)
  {
  }

  lemma RegionUdt(v: bv64, w: bv64)
    requires SameRegion(v, w)
    ensures UdtIndex(v) == UdtIndex(w)
  {
  }

  lemma RegionMdt(v: bv64, w: bv64)
    requires SameRegion(v, w) && MdtIndex(v) == MdtIndex(w)
    ensures PageNumber(v) == PageNumber(w)
  {
  }

  lemma PageMdt(v: bv64, w: bv64)
    requires PageNumber(v) == PageNumber(w)
    ensures MdtIndex(v) == MdtIndex(w)
  {
  }

  /** The three indices and the place within the page are the lower 48 bits of the address. */
  lemma IndicesRebuild(v: bv64)
    ensures v & 0xffff_ffff_ffff ==
      (GdtIndex(v) << 39) | (UdtIndex(v) << 30) | (MdtIndex(v) << 21) | (v & 0x1f_ffff)
    ensures GdtIndex(v) < 512 && UdtIndex(v) < 512 && MdtIndex(v) < 512
  {
  }

  /** Within a region the upper indices are constant and the last one is the page number. */
  lemma RegionIndices(v: bv64, w: bv64)
    requires SameRegion(v, w)
    ensures GdtIndex(v) == GdtIndex(w) && UdtIndex(v) == UdtIndex(w)
    ensures MdtIndex(v) == MdtIndex(w) <==> PageNumber(v) == PageNumber(w)
  {
    hide SameRegion, GdtIndex, UdtIndex, MdtIndex, PageNumber;
    RegionGdt(v, w);
    RegionUdt(v, w);
    if MdtIndex(v) == MdtIndex(w) {
      RegionMdt(v, w);
    }
    if PageNumber(v) == PageNumber(w) {
      PageMdt(v, w);
    }
  }

  lemma AlignDownSame(v: bv64)
    ensures SameRegion(AlignDown(v), v) && PageNumber(AlignDown(v)) == PageNumber(v)
    ensures GdtIndex(AlignDown(v)) == GdtIndex(v) && UdtIndex(AlignDown(v)) == UdtIndex(v)
    ensures MdtIndex(AlignDown(v)) == MdtIndex(v)
  {
  }

  lemma AlignedPage(p: bv64)
    requires Aligned(p)
    ensures PageOf(p) == p
  {
  }

  // ----- frames

  lemma UdtStepFrame(m: Words, m': Words, gdt: bv64, region: bv64, v: bv64)
    requires Aligned(gdt) && Shaped(m, gdt, region) && SameRegion(v, region)
    requires forall a: bv64 :: PageOf(a) == gdt ==> Load(m', a) == Load(m, a)
    ensures GdtStep(m', gdt, v) == GdtStep(m, gdt, region) && UdtStep(m', gdt, v) == UdtStep(m, gdt, region)
  {
    RegionIndices(v, region);
    IndexRange(v);
    EntryPages(gdt, GdtIndex(v));
    EntryPages(gdt, UdtIndex(v));
    hide PageOf, GdtIndex, UdtIndex, MdtIndex, EntryAt, DirEntryAddr, ToVirt, Present, Aligned, Udt, Mdt, SameRegion;
  }

  /** Within a region every address walks to the same middle table. */
  lemma SameTables(m: Words, gdt: bv64, region: bv64, v: bv64)
    requires Aligned(gdt) && Shaped(m, gdt, region) && SameRegion(v, region)
    ensures GdtStep(m, gdt, v) == GdtStep(m, gdt, region) && UdtStep(m, gdt, v) == UdtStep(m, gdt, region)
  {
    UdtStepFrame(m, m, gdt, region, v);
  }

  lemma LookupFrame(m: Words, m': Words, gdt: bv64, region: bv64, v: bv64)
    requires Aligned(gdt) && Shaped(m, gdt, region) && SameRegion(v, region)
    requires forall a: bv64 :: PageOf(a) == gdt ==> Load(m', a) == Load(m, a)
    ensures Lookup(m', gdt, v) == Lookup(m, gdt, v)
  {
    UdtStepFrame(m, m', gdt, region, v);
    SameTables(m, gdt, region, v);
    IndexRange(v);
    EntryPages(gdt, MdtIndex(v));
    hide PageOf, GdtIndex, UdtIndex, MdtIndex, EntryAt, DirEntryAddr, ToVirt, Present, Aligned, Udt, Mdt, SameRegion;
  }

  /** Tables survive any change to other pages. */
  lemma RepresentsFrame(m: Words, m': Words, gdt: bv64, region: bv64, pages: map<Word, Word>)
    requires Represents(m, gdt, region, pages)
    requires forall a: bv64 :: PageOf(a) == gdt ==> Load(m', a) == Load(m, a)
    ensures Represents(m', gdt, region, pages)
  {
    hide PageOf, Aligned, SameRegion, Lookup, Find;
    RegionSelf(region);
    UdtStepFrame(m, m', gdt, region, region);
    forall v: bv64 | SameRegion(v, region)
      ensures Lookup(m', gdt, v) == Find(pages, PageNumber(v))
    {
      LookupFrame(m, m', gdt, region, v);
    }
  }

  lemma RegionSelf(v: bv64)
    ensures SameRegion(v, v)
  {
  }

  lemma OnlyPageKeeps(m: Words, m': Words, p: bv64, gdt: bv64)
    requires OnlyPage(m, m', p) && p != gdt
    ensures forall a: bv64 :: PageOf(a) == gdt ==> Load(m', a) == Load(m, a)
  {
    hide PageOf;
  }
}
