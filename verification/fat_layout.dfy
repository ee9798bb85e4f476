/** Where things lie on a FAT16 volume: reserved sectors, tables, root directory and clusters follow
    each other (section "FAT Data Structure" of the Microsoft FAT specification). */
module FatLayout {
  import opened CTypes
  import opened FatReads

  /** Sector `s` of the volume. */
  function SectorPlace(v: Volume, s: nat): nat {
    s * v.bytesPerSector
  }

  /** Entry `index` of copy `table` of the allocation table. */
  function TableEntryPlace(v: Volume, table: nat, index: nat): nat {
    (v.reserved + table * v.sectorsPerFat) * v.bytesPerSector + 2 * index
  }

  /** get_root_dir_section. */
  function RootStart(v: Volume): nat {
    (v.reserved + v.fatCount * v.sectorsPerFat) * v.bytesPerSector
  }

  function DirEntryPlace(v: Volume, k: nat): nat {
    RootStart(v) + 32 * k
  }

  /** Cluster `index` counted from the end of the root directory. */
  function ClusterStart(v: Volume, index: nat): nat
    requires index >= 2
  {
    DirEntryPlace(v, v.rootEntries) + (index - 2) * (v.bytesPerSector * v.sectorsPerCluster)
  }

  /** The first cluster starts where the root directory ends. */
  lemma FirstClusterFollowsRoot(v: Volume)
    requires DirEntryPlace(v, v.rootEntries) < WORD32
    ensures ClusterOffset(v, 2) == DirEntryPlace(v, v.rootEntries)
  {
    Distribute(v.reserved, v.fatCount * v.sectorsPerFat, v.bytesPerSector);
  }

  lemma Distribute(a: nat, b: nat, c: nat)
    ensures (a + b) * c == a * c + b * c
  {
  }

  lemma Ordered(a: nat, b: nat, c: nat)
    requires a <= b
    ensures a * c <= b * c
  {
  }

  /** The reserved sectors lie before the tables. */
  lemma ReservedFirst(v: Volume, s: nat, b: nat, table: nat, index: nat)
    requires s < v.reserved && b < v.bytesPerSector
    ensures SectorPlace(v, s) + b < TableEntryPlace(v, table, index)
  {
    Distribute(s, 1, v.bytesPerSector);
    Ordered(s + 1, v.reserved + table * v.sectorsPerFat, v.bytesPerSector);
  }

  /** Every two-byte entry of every copy of the table lies before the root directory; the copies
      follow each other. */
  lemma TablesBeforeRoot(v: Volume, table: nat, index: nat)
    requires table < v.fatCount && 2 * index + 2 <= v.sectorsPerFat * v.bytesPerSector
    ensures TableEntryPlace(v, table, index) + 2 <= RootStart(v)
    ensures TableEntryPlace(v, table, index) + 2 <= TableEntryPlace(v, table + 1, 0)
  {
    var s, b := v.sectorsPerFat, v.bytesPerSector;
    Distribute(table, 1, s);
    Distribute(v.reserved + table * s, s, b);
    Ordered(table + 1, v.fatCount, s);
    Ordered(v.reserved + (table + 1) * s, v.reserved + v.fatCount * s, b);
    assert v.reserved + (table + 1) * s == v.reserved + table * s + s;
  }

  /** Every directory entry lies behind the tables and before every cluster within reach, and the
      clusters follow each other without a gap. */
  lemma RootBeforeClusters(v: Volume, k: nat, index: nat)
    requires k < v.rootEntries && index >= 2 && ClusterStart(v, index + 1) < WORD32
    ensures RootStart(v) <= DirEntryPlace(v, k) && DirEntryPlace(v, k) + 32 <= ClusterOffset(v, index)
    ensures ClusterOffset(v, index + 1) == ClusterOffset(v, index) + v.bytesPerSector * v.sectorsPerCluster
  {
    Distribute(index - 2, 1, v.bytesPerSector * v.sectorsPerCluster);
    ClusterIsThere(v, index);
    ClusterIsThere(v, index + 1);
  }

  /** A cluster within reach is at its place on the volume. */
  lemma ClusterIsThere(v: Volume, index: nat)
    requires index >= 2 && ClusterStart(v, index) < WORD32
    ensures ClusterOffset(v, index) == ClusterStart(v, index)
  {
    Distribute(v.reserved, v.fatCount * v.sectorsPerFat, v.bytesPerSector);
  }

  // ----- entries of the table

  /** An entry of the first table is a 16-bit number with the low byte first. */
  lemma TableEntryBytes(v: Volume, index: nat, c: nat)
    requires c < 0x1_0000
    ensures NextCluster(v, index) == c <==>
      && ByteAt(v, TableEntryPlace(v, 0, index)) as int == c % 256
      && ByteAt(v, TableEntryPlace(v, 0, index) + 1) as int == c / 256
  {
    assert v.reserved + 0 * v.sectorsPerFat == v.reserved;
  }

  // ----- the bytes of a file

  /** Byte `j` of the `k`-th cluster of a chain is that byte of the volume, counted from the end of the
      root directory. */
  lemma {:induction false} ContentsAreThere(v: Volume, first: nat, n: nat, k: nat, j: nat)
    requires WellFormed(v, first, n) && k < n && j < v.bytesPerSector * v.sectorsPerCluster
    ensures Walk(v, first, k) >= 2
    ensures k * ClusterSize(v) + j < n * ClusterSize(v)
    ensures Contents(v, first, n)[k * ClusterSize(v) + j] == ByteAt(v, ClusterStart(v, Walk(v, first, k)) + j)
    decreases k
  {
    hide ClusterStart, NextCluster, Contents;
    Inside(k, n, ClusterSize(v), j);
    if k == 0 {
      BytesOf(v, first, n, j);
    } else {
      ContentsAreThere(v, NextCluster(v, first), n - 1, k - 1, j);
      var cs := ClusterSize(v);
      OneClusterOn(v, first, n, k * cs + j, (k - 1) * cs + j);
    }
  }

  lemma Inside(k: nat, n: nat, cs: nat, j: nat)
    requires k < n && j < cs
    ensures k * cs + j < n * cs
    ensures k > 0 ==> (k - 1) * cs + j < (n - 1) * cs && k * cs + j == cs + ((k - 1) * cs + j)
  {
    Ordered(k + 1, n, cs);
    Distribute(k, 1, cs);
    if k > 0 {
      Distribute(k - 1, 1, cs);
      Distribute(n - 1, 1, cs);
    }
  }

  lemma OneClusterOn(v: Volume, first: nat, n: nat, p: nat, q: nat)
    requires WellFormed(v, first, n) && n > 0
    requires p == ClusterSize(v) + q && p < |Contents(v, first, n)|
    requires q < |Contents(v, NextCluster(v, first), n - 1)|
    ensures Contents(v, first, n)[p] == Contents(v, NextCluster(v, first), n - 1)[q]
  {
    hide ClusterBytes, NextCluster, ClusterSize;
    ClusterLength(v, first);
  }

  lemma ClusterLength(v: Volume, index: nat)
    requires index >= FAT_RESERVED
    ensures |ClusterBytes(v, index)| == ClusterSize(v)
  {
  }

  lemma BytesOf(v: Volume, first: nat, n: nat, j: nat)
    requires WellFormed(v, first, n) && n > 0 && j < ClusterSize(v)
    ensures j < n * ClusterSize(v) && Contents(v, first, n)[j] == ByteAt(v, ClusterStart(v, first) + j)
  {
    Distribute(v.reserved, v.fatCount * v.sectorsPerFat, v.bytesPerSector);
    Ordered(1, n, ClusterSize(v));
    assert Contents(v, first, n)[j] == ClusterBytes(v, first)[j];
  }
}
