/** fs/file.c: reading the clusters of a file on a FAT16 volume. */
module FatReads {
  import opened CTypes

  const FAT_RESERVED: nat := 2
  const END_OF_DATA: nat := 0xffff
  const DIR_ENTRY_BYTES: nat := 32

  newtype Byte = b: int | 0 <= b < 256

  /** The parameters of the volume and its bytes, from the parameter block on. */
  datatype Volume = Volume(bytesPerSector: nat, sectorsPerCluster: nat, reserved: nat, fatCount: nat,
                           sectorsPerFat: nat, rootEntries: nat, disk: seq<Byte>)

  /** UINT32_MAX, a failed assertion, or the bytes read. */
  datatype ReadResult = Invalid | Halted | Data(bytes: seq<Byte>)

  function ByteAt(v: Volume, a: nat): Byte {
    if a < |v.disk| then v.disk[a] else 0
  }

  function Bytes(v: Volume, a: nat, n: nat): (r: seq<Byte>)
    ensures |r| == n
  {
    seq(n, i requires 0 <= i => ByteAt(v, a + i))
  }

  function ClusterSize(v: Volume): nat {
    v.bytesPerSector * v.sectorsPerCluster
  }

  /** One 16-bit entry of the allocation table, low byte first. */
  function NextCluster(v: Volume, index: nat): nat {
    var a := v.reserved * v.bytesPerSector + 2 * index;
    ByteAt(v, a) as int + 256 * ByteAt(v, a + 1) as int
  }

  function DataStart(v: Volume): nat {
    v.reserved * v.bytesPerSector + v.fatCount * v.sectorsPerFat * v.bytesPerSector + v.rootEntries * DIR_ENTRY_BYTES
  }

  /** get_cluster_offset, in 32-bit arithmetic. */
  function ClusterOffset(v: Volume, index: nat): U32
    requires index >= FAT_RESERVED
  {
    (DataStart(v) + (index - FAT_RESERVED) * ClusterSize(v)) % WORD32
  }

  // ----- read_raw_data

  function Walk(v: Volume, index: nat, steps: nat): nat
    decreases steps
  {
    if steps == 0 then index else Walk(v, NextCluster(v, index), steps - 1)
  }

  function Smaller(a: nat, b: nat): nat {
    if a > b then b else a
  }

  function Prepend(s: seq<Byte>, r: ReadResult): ReadResult {
    match r
    case Data(t) => Data(s + t)
    case _ => r
  }

  /** The copying loop from byte address `data` of cluster `index`; `copy` is the next amount. */
  function CopyClusters(v: Volume, data: nat, index: nat, remaining: nat, copy: nat): ReadResult
    requires ClusterSize(v) > 0 && copy <= remaining && (remaining > 0 ==> copy > 0)
    decreases remaining
  {
    if remaining == 0 then Data([])
    else
      var rest := remaining - copy;
      var next := NextCluster(v, index);
      if next == END_OF_DATA then Data(Bytes(v, data, copy) + Bytes(v, data, rest))
      else if next < FAT_RESERVED then Halted
      else Prepend(Bytes(v, data, copy), CopyClusters(v, ClusterOffset(v, next), next, rest,
        Smaller(rest, ClusterSize(v))))
  }

  function RawRead(v: Volume, cluster: nat, offset: nat, size: nat): ReadResult
    requires ClusterSize(v) > 0
  {
    var index := Walk(v, cluster, offset / ClusterSize(v));
    if index < FAT_RESERVED then Invalid
    else
      var start := offset % ClusterSize(v);
      CopyClusters(v, ClusterOffset(v, index) + start, index, size, Smaller(size, ClusterSize(v) - start))
  }

  lemma PrependThen(s: seq<Byte>, t: seq<Byte>, r: ReadResult)
    ensures Prepend(s, Prepend(t, r)) == Prepend(s + t, r)
  {
    if r.Data? {
      assert s + (t + r.bytes) == s + t + r.bytes;
    }
  }

  lemma PrependEnds(s: seq<Byte>, r: ReadResult)
    ensures Prepend([], r) == r && Prepend(s, Halted) == Halted && Prepend(s, Data([])) == Data(s)
  {
    assert s + [] == s;
    assert r.Data? ==> [] + r.bytes == r.bytes;
  }

  lemma PrependTwo(s: seq<Byte>, t: seq<Byte>, u: seq<Byte>)
    ensures Prepend(s, Data(t + u)) == Data(s + t + u)
  {
    assert s + (t + u) == s + t + u;
  }

  datatype ReadEnd = ReadInvalid | ReadHalted | ReadBytes(count: nat)

  /** A buffer after some bytes have been written to it. */
  function Written(before: seq<Byte>, to: nat, bytes: seq<Byte>): seq<Byte>
    requires to + |bytes| <= |before|
  {
    before[..to] + bytes + before[to + |bytes|..]
  }

  /** memcpy from the volume. */
  method CopyBytes(v: Volume, buf: array<Byte>, to: nat, data: nat, n: nat)
    requires to + n <= buf.Length
    modifies buf
    ensures buf[..] == Written(old(buf[..]), to, Bytes(v, data, n))
  {
    hide Written, Bytes, ByteAt;
    ghost var before: seq<Byte> := buf[..];
    var i := 0;
    WriteNothing(v, before, to, data);
    while i < n
      invariant 0 <= i <= n
      invariant buf[..] == Written(before, to, Bytes(v, data, i))
    {
      WriteOne(before, to, Bytes(v, data, i), ByteAt(v, data + i));
      OneMoreByte(v, data, i);
      buf[to + i] := ByteAt(v, data + i);
      i := i + 1;
    }
  }

  lemma WriteNothing(v: Volume, before: seq<Byte>, to: nat, data: nat)
    requires to <= |before|
    ensures Written(before, to, Bytes(v, data, 0)) == before
  {
  }

  lemma WriteOne(before: seq<Byte>, to: nat, bytes: seq<Byte>, b: Byte)
    requires to + |bytes| < |before|
    ensures Written(before, to, bytes + [b]) == Written(before, to, bytes)[to + |bytes| := b]
  {
  }

  lemma OneMoreByte(v: Volume, data: nat, i: nat)
    ensures Bytes(v, data, i + 1) == Bytes(v, data, i) + [ByteAt(v, data + i)]
  {
  }

  lemma WriteNext(done: seq<Byte>, rest: seq<Byte>, bytes: seq<Byte>)
    requires |bytes| <= |rest|
    ensures Written(done + rest, |done|, bytes) == done + bytes + rest[|bytes|..]
  {
  }

  /** The outcome of a read and the buffer agree with the specification. */
  predicate Delivered(spec: ReadResult, r: ReadEnd, size: nat, before: seq<Byte>, after: seq<Byte>)
    requires size <= |before|
  {
    match spec
    case Invalid => r == ReadInvalid && after == before
    case Halted => r == ReadHalted
    case Data(bytes) => r == ReadBytes(size) && |bytes| == size && after == bytes + before[size..]
  }

  /** The copying loop of read_raw_data. */
  method CopyChain(v: Volume, start: nat, first: nat, buf: array<Byte>, size: U32, boundary: nat) returns (r: ReadEnd)
    requires ClusterSize(v) > 0 && size <= buf.Length && boundary > 0
    modifies buf
    ensures Delivered(CopyClusters(v, start, first, size, Smaller(size, boundary)), r, size, old(buf[..]), buf[..])
  {
    hide ClusterSize, NextCluster, ByteAt, DataStart, ClusterOffset, Prepend, Bytes, CopyClusters;
    hide Written, Delivered;
    var index: nat, data: nat := first, start;
    var copy: nat := Smaller(size, boundary);
    var readSize: nat := 0;
    ghost var all := CopyClusters(v, start, first, size, copy);
    ghost var before: seq<Byte> := buf[..];
    ghost var done: seq<Byte> := [];
    PrependEnds(done, all);
    while readSize < size
      invariant readSize == |done| <= size && copy <= size - readSize && (readSize < size ==> copy > 0)
      invariant buf[..] == done + before[readSize..]
      invariant Prepend(done, CopyClusters(v, data, index, size - readSize, copy)) == all
    {
      ghost var bytes := Bytes(v, data, copy);
      CopyNext(v, data, index, size - readSize, copy);
      CopyBytes(v, buf, readSize, data, copy);
      WriteNext(done, before[readSize..], bytes);
      DropTwice(before, readSize, copy);
      readSize := readSize + copy;
      var remaining := size - readSize;
      index := NextCluster(v, index);
      if index == END_OF_DATA {
        CopyBytes(v, buf, readSize, data, remaining);
        EndReached(done, bytes, Bytes(v, data, remaining), size, before, buf[..]);
        return ReadBytes(readSize + remaining);
      }
      if index < FAT_RESERVED {
        PrependEnds(done, Halted);
        DeliveredHalted(size, before, buf[..]);
        return ReadHalted;
      }
      copy := Smaller(remaining, ClusterSize(v));
      data := ClusterOffset(v, index);
      PrependThen(done, bytes, CopyClusters(v, data, index, remaining, copy));
      done := done + bytes;
    }
    CopyDone(v, data, index);
    PrependEnds(done, Halted);
    DeliveredData(done, size, before, buf[..]);
    return ReadBytes(readSize);
  }

  /** The end mark: what is missing has been written after the rest. */
  lemma EndReached(done: seq<Byte>, bytes: seq<Byte>, again: seq<Byte>, size: nat, before: seq<Byte>, after: seq<Byte>)
    requires |done| + |bytes| + |again| == size <= |before|
    requires after == Written(done + bytes + before[|done| + |bytes|..], |done| + |bytes|, again)
    ensures Delivered(Prepend(done, Data(bytes + again)), ReadBytes(size), size, before, after)
  {
    hide Written, Delivered, Prepend;
    WriteNext(done + bytes, before[|done| + |bytes|..], again);
    DropTwice(before, |done| + |bytes|, |again|);
    PrependTwo(done, bytes, again);
    DeliveredData(done + bytes + again, size, before, after);
  }

  /** One turn of the copying loop. */
  lemma CopyNext(v: Volume, data: nat, index: nat, remaining: nat, copy: nat)
    requires ClusterSize(v) > 0 && 0 < copy <= remaining
    ensures var rest, next := remaining - copy, NextCluster(v, index);
      CopyClusters(v, data, index, remaining, copy) ==
        if next == END_OF_DATA then Data(Bytes(v, data, copy) + Bytes(v, data, rest))
        else if next < FAT_RESERVED then Halted
        else Prepend(Bytes(v, data, copy), CopyClusters(v, ClusterOffset(v, next), next, rest,
          Smaller(rest, ClusterSize(v))))
  {
    hide ClusterSize, NextCluster, ByteAt, DataStart, ClusterOffset, Prepend, Bytes;
  }

  lemma CopyDone(v: Volume, data: nat, index: nat)
    requires ClusterSize(v) > 0
    ensures CopyClusters(v, data, index, 0, 0) == Data([])
  {
    hide ClusterSize;
  }

  lemma DropTwice(s: seq<Byte>, i: nat, j: nat)
    requires i + j <= |s|
    ensures s[i..][j..] == s[i + j..]
  {
  }

  lemma DeliveredData(bytes: seq<Byte>, size: nat, before: seq<Byte>, after: seq<Byte>)
    requires |bytes| == size <= |before| && after == bytes + before[size..]
    ensures Delivered(Data(bytes), ReadBytes(size), size, before, after)
  {
  }

  lemma DeliveredHalted(size: nat, before: seq<Byte>, after: seq<Byte>)
    requires size <= |before|
    ensures Delivered(Halted, ReadHalted, size, before, after)
  {
  }

  /** read_raw_data fills the buffer with what RawRead says. */
  method ReadRawData(v: Volume, cluster: nat, buf: array<Byte>, offset: U32, size: U32) returns (r: ReadEnd)
    requires ClusterSize(v) > 0 && size <= buf.Length
    modifies buf
    ensures Delivered(RawRead(v, cluster, offset, size), r, size, old(buf[..]), buf[..])
  {
    hide ClusterSize, NextCluster, DataStart, CopyClusters;
    var startCluster: nat := offset / ClusterSize(v);
    var index: nat := cluster;
    while startCluster > 0
      invariant Walk(v, index, startCluster) == Walk(v, cluster, offset / ClusterSize(v))
    {
      index := NextCluster(v, index);
      startCluster := startCluster - 1;
    }
    if index < FAT_RESERVED {
      return ReadInvalid;
    }
    var startOffset := offset % ClusterSize(v);
    r := CopyChain(v, ClusterOffset(v, index) + startOffset, index, buf, size, ClusterSize(v) - startOffset);
  }

  // ----- the flat file

  /** The bytes of a cluster, at its place on the volume. */
  function ClusterBytes(v: Volume, index: nat): seq<Byte>
    requires index >= FAT_RESERVED
  {
    Bytes(v, DataStart(v) + (index - FAT_RESERVED) * ClusterSize(v), ClusterSize(v))
  }

  /** `n` clusters from `first` on, linked through the table, up to the end mark. Each lies
      within reach of a 32-bit offset. */
  predicate WellFormed(v: Volume, first: nat, n: nat)
    decreases n
  {
    if n == 0 then first == END_OF_DATA
    else
      && FAT_RESERVED <= first < END_OF_DATA
      && DataStart(v) + (first - FAT_RESERVED + 1) * ClusterSize(v) <= WORD32
      && WellFormed(v, NextCluster(v, first), n - 1)
  }

  /** The clusters of a file, one after the other. */
  function Contents(v: Volume, first: nat, n: nat): (s: seq<Byte>)
    requires WellFormed(v, first, n)
    ensures |s| == n * ClusterSize(v)
    decreases n
  {
    if n == 0 then [] else ClusterBytes(v, first) + Contents(v, NextCluster(v, first), n - 1)
  }

  lemma ClusterPlace(v: Volume, index: nat)
    requires FAT_RESERVED <= index && ClusterSize(v) > 0
    requires DataStart(v) + (index - FAT_RESERVED + 1) * ClusterSize(v) <= WORD32
    ensures ClusterOffset(v, index) == DataStart(v) + (index - FAT_RESERVED) * ClusterSize(v)
  {
    assert (index - FAT_RESERVED + 1) * ClusterSize(v) == (index - FAT_RESERVED) * ClusterSize(v) + ClusterSize(v);
  }

  /** Different clusters occupy different bytes, all behind the table and the root directory. */
  lemma ClustersApart(v: Volume, i: nat, j: nat)
    requires FAT_RESERVED <= i < j && DataStart(v) + (j - FAT_RESERVED + 1) * ClusterSize(v) <= WORD32
      && ClusterSize(v) > 0
    ensures DataStart(v) <= ClusterOffset(v, i) && ClusterOffset(v, i) + ClusterSize(v) <= ClusterOffset(v, j)
  {
    var cs := ClusterSize(v);
    ClusterPlace(v, j);
    hide ClusterSize, DataStart, ClusterOffset;
    TimesMonotone(i - FAT_RESERVED + 1, j - FAT_RESERVED, cs);
    TimesMonotone(j - FAT_RESERVED, j - FAT_RESERVED + 1, cs);
    assert (i - FAT_RESERVED + 1) * cs == (i - FAT_RESERVED) * cs + cs;
    ClusterPlace(v, i);
  }

  /** From inside a cluster the loop copies that stretch of the file; when it reaches the end
      mark nothing is left to copy. */
  lemma {:induction false} CopiesSlice(v: Volume, index: nat, n: nat, start: nat, size: nat)
    requires ClusterSize(v) > 0 && n > 0 && WellFormed(v, index, n)
    requires start < ClusterSize(v) && start + size <= n * ClusterSize(v)
    ensures CopyClusters(v, ClusterOffset(v, index) + start, index, size, Smaller(size, ClusterSize(v) - start)) ==
      Data(Contents(v, index, n)[start..start + size])
    decreases n
  {
    hide ClusterSize, DataStart, NextCluster, ClusterOffset, ByteAt, Contents, Bytes;
    var cs := ClusterSize(v);
    var next := NextCluster(v, index);
    var data := ClusterOffset(v, index) + start;
    if size <= cs - start {
      LastCopy(v, data, index, n, size);
      FirstCluster(v, index, n, start, size);
    } else {
      OneLess(n, cs);
      FirstCluster(v, index, n, start, cs - start);
      CopiesSlice(v, next, n - 1, 0, size - (cs - start));
      Onward(v, index, n, start, size);
      PrependData(Contents(v, index, n)[start..cs], Contents(v, next, n - 1)[0..size - (cs - start)]);
    }
  }

  lemma OneLess(n: nat, cs: nat)
    requires n > 0
    ensures (n - 1) * cs == n * cs - cs
  {
  }

  /** A stretch of the first cluster of a file. */
  lemma FirstCluster(v: Volume, index: nat, n: nat, start: nat, size: nat)
    requires ClusterSize(v) > 0 && n > 0 && WellFormed(v, index, n) && start + size <= ClusterSize(v)
    ensures start + size <= n * ClusterSize(v)
    ensures Contents(v, index, n)[start..start + size] == Bytes(v, ClusterOffset(v, index) + start, size)
  {
    ClusterPlace(v, index);
    hide ClusterSize, DataStart, NextCluster, ClusterOffset, ByteAt;
    OneLess(n, ClusterSize(v));
    var all, next := Contents(v, index, n), NextCluster(v, index);
    assert all == ClusterBytes(v, index) + Contents(v, next, n - 1);
    assert all[start..start + size] == ClusterBytes(v, index)[start..start + size];
  }

  /** A stretch that runs past the first cluster goes on at the start of the next. */
  lemma Onward(v: Volume, index: nat, n: nat, start: nat, size: nat)
    requires n > 0 && WellFormed(v, index, n)
    requires start <= ClusterSize(v) <= start + size <= n * ClusterSize(v)
    ensures ClusterSize(v) <= n * ClusterSize(v) && start + size - ClusterSize(v) <= (n - 1) * ClusterSize(v)
    ensures Contents(v, index, n)[start..start + size] ==
      Contents(v, index, n)[start..ClusterSize(v)]
        + Contents(v, NextCluster(v, index), n - 1)[0..start + size - ClusterSize(v)]
  {
    hide ClusterSize, DataStart, NextCluster, Bytes;
    OneLess(n, ClusterSize(v));
    var all, rest := Contents(v, index, n), Contents(v, NextCluster(v, index), n - 1);
    var cs := ClusterSize(v);
    assert all == ClusterBytes(v, index) + rest;
    SliceOfSum(ClusterBytes(v, index), rest, start, start + size);
  }

  lemma SliceOfSum(s: seq<Byte>, t: seq<Byte>, i: nat, j: nat)
    requires i <= |s| <= j <= |s| + |t|
    ensures (s + t)[i..j] == (s + t)[i..|s|] + t[0..j - |s|]
  {
  }

  lemma LastCopy(v: Volume, data: nat, index: nat, n: nat, size: nat)
    requires ClusterSize(v) > 0 && n > 0 && WellFormed(v, index, n)
    ensures CopyClusters(v, data, index, size, size) == Data(Bytes(v, data, size))
  {
    hide ClusterSize, DataStart, NextCluster, ClusterOffset, ByteAt;
    assert Bytes(v, data, 0) == [];
    assert Bytes(v, data, size) + [] == Bytes(v, data, size);
    assert WellFormed(v, NextCluster(v, index), n - 1);
  }

  /** Reading inside a well-formed chain gives exactly that slice of the file. */
  lemma {:induction false} ReadsSlice(v: Volume, first: nat, n: nat, offset: nat, size: nat)
    requires ClusterSize(v) > 0 && WellFormed(v, first, n) && offset + size <= n * ClusterSize(v)
    ensures RawRead(v, first, offset, size) == Data(Contents(v, first, n)[offset..offset + size])
    decreases n
  {
    hide ClusterSize, DataStart, NextCluster, ClusterOffset, ByteAt, CopyClusters;
    var cs := ClusterSize(v);
    if offset < cs {
      InFirst(offset, cs);
      if n == 0 {
        NothingToRead(v, size, cs);
      } else {
        CopiesSlice(v, first, n, offset, size);
      }
    } else {
      NotEmpty(n, cs, offset);
      StepBack(offset, cs);
      OneLess(n, cs);
      ReadsSlice(v, NextCluster(v, first), n - 1, offset - cs, size);
      assert RawRead(v, first, offset, size) == RawRead(v, NextCluster(v, first), offset - cs, size);
      var rest := Contents(v, NextCluster(v, first), n - 1);
      assert Contents(v, first, n) == ClusterBytes(v, first) + rest;
      DropFirst(ClusterBytes(v, first), rest, offset, size);
    }
  }

  /** The address that the loop last copied from, in a chain entered at `start`. */
  function LastStart(v: Volume, index: nat, n: nat, start: nat): nat
    requires n > 0 && WellFormed(v, index, n)
    decreases n
  {
    if n == 1 then ClusterOffset(v, index) + start else LastStart(v, NextCluster(v, index), n - 1, 0)
  }

  /** The loop asked for more than the chain holds: at the end mark it copies what is missing
      from the place it last read. */
  lemma {:induction false} CopiesPastEnd(v: Volume, index: nat, n: nat, start: nat, size: nat)
    requires ClusterSize(v) > 0 && n > 0 && WellFormed(v, index, n)
    requires start < ClusterSize(v) <= n * ClusterSize(v) < start + size
    ensures CopyClusters(v, ClusterOffset(v, index) + start, index, size, Smaller(size, ClusterSize(v) - start)) ==
      Data(Contents(v, index, n)[start..] + Bytes(v, LastStart(v, index, n, start), start + size - n * ClusterSize(v)))
    decreases n
  {
    hide ClusterSize, DataStart, NextCluster, ClusterOffset, ByteAt, Contents, Bytes;
    var cs, next := ClusterSize(v), NextCluster(v, index);
    OneLess(n, cs);
    FirstCluster(v, index, n, start, cs - start);
    var all := Contents(v, index, n);
    if n == 1 {
      SliceToEnd(all, start);
    } else {
      OneLess(n - 1, cs);
      AtLeastOne(n - 1, cs);
      CopiesPastEnd(v, next, n - 1, 0, size - (cs - start));
      Onward(v, index, n, start, n * cs - start);
      SliceToEnd(all, start);
      var rest := Contents(v, next, n - 1);
      SliceToEnd(rest, 0);
      PrependTwo(all[start..cs], rest[0..], Bytes(v, LastStart(v, index, n, start), start + size - n * cs));
      PrependData(all[start..cs], rest[0..] + Bytes(v, LastStart(v, index, n, start), start + size - n * cs));
    }
  }

  lemma PrependData(s: seq<Byte>, t: seq<Byte>)
    ensures Prepend(s, Data(t)) == Data(s + t)
  {
  }

  lemma SliceToEnd(s: seq<Byte>, i: nat)
    requires i <= |s|
    ensures s[i..] == s[i..|s|]
  {
  }

  lemma {:induction false} LastStartIs(v: Volume, index: nat, n: nat, start: nat)
    requires n > 0 && WellFormed(v, index, n)
    ensures var last := Walk(v, index, n - 1);
      last >= FAT_RESERVED && LastStart(v, index, n, start) == ClusterOffset(v, last) + if n == 1 then start else 0
    decreases n
  {
    hide ClusterOffset, NextCluster;
    if n > 1 {
      LastStartIs(v, NextCluster(v, index), n - 1, 0);
    }
  }

  /** A read that begins inside the chain and runs past its end still reports `size` bytes: the
      rest of the file, then bytes from the place last read again: the start of the last
      cluster or, if the read began in it, the place where it began. */
  lemma {:induction false} ReadsPastEnd(v: Volume, first: nat, n: nat, offset: nat, size: nat) returns (again: nat)
    requires ClusterSize(v) > 0 && WellFormed(v, first, n) && offset < n * ClusterSize(v) < offset + size
    ensures RawRead(v, first, offset, size) ==
      Data(Contents(v, first, n)[offset..] + Bytes(v, again, offset + size - n * ClusterSize(v)))
    ensures n > 0 && var last := Walk(v, first, n - 1);
      last >= FAT_RESERVED && again == ClusterOffset(v, last) +
        if offset / ClusterSize(v) == n - 1 then offset % ClusterSize(v) else 0
    decreases n
  {
    hide ClusterSize, DataStart, NextCluster, ClusterOffset, ByteAt, CopyClusters, LastStart;
    var cs := ClusterSize(v);
    OneLess(n, cs);
    if offset < cs {
      InFirst(offset, cs);
      AtLeastOne(n, cs);
      CopiesPastEnd(v, first, n, offset, size);
      again := LastStart(v, first, n, offset);
      LastStartIs(v, first, n, offset);
    } else {
      StepBack(offset, cs);
      var next := NextCluster(v, first);
      again := ReadsPastEnd(v, next, n - 1, offset - cs, size);
      assert RawRead(v, first, offset, size) == RawRead(v, next, offset - cs, size);
      assert Contents(v, first, n)[offset..] == Contents(v, next, n - 1)[offset - cs..];
    }
  }

  lemma AtLeastOne(n: nat, cs: nat)
    requires n > 0
    ensures cs <= n * cs
  {
  }

  lemma DropFirst(s: seq<Byte>, t: seq<Byte>, offset: nat, size: nat)
    requires |s| <= offset && offset + size <= |s| + |t|
    ensures (s + t)[offset..offset + size] == t[offset - |s|..offset - |s| + size]
  {
  }

  lemma InFirst(offset: nat, cs: nat)
    requires offset < cs
    ensures offset / cs == 0 && offset % cs == offset
  {
  }

  lemma NotEmpty(n: nat, cs: nat, offset: nat)
    requires 0 < cs <= offset <= n * cs
    ensures n > 0
  {
  }

  lemma NothingToRead(v: Volume, size: nat, cs: nat)
    requires cs == ClusterSize(v) && cs > 0 && size <= 0 * cs
    ensures RawRead(v, END_OF_DATA, 0, size) == Data([])
  {
    hide ClusterSize, ClusterOffset;
    InFirst(0, cs);
  }

  lemma StepBack(offset: nat, cs: nat)
    requires 0 < cs <= offset
    ensures offset / cs == (offset - cs) / cs + 1 && offset % cs == (offset - cs) % cs
  {
    var q, r := (offset - cs) / cs, (offset - cs) % cs;
    assert offset == (q + 1) * cs + r;
    DivUnique(offset, cs, q + 1, r);
  }

  lemma DivUnique(a: nat, d: nat, q: nat, r: nat)
    requires d > 0 && a == q * d + r && r < d
    ensures a / d == q && a % d == r
  {
    var p := a / d;
    assert a == p * d + a % d;
    if p < q {
      TimesMonotone(p + 1, q, d);
    } else if p > q {
      TimesMonotone(q + 1, p, d);
    }
  }

  lemma TimesMonotone(a: nat, b: nat, d: nat)
    requires a <= b
    ensures a * d <= b * d
  {
  }
}
