/** read_file of fs/file.c: reading a file in pieces. */
module FileReads {
  import opened CTypes
  import opened FatReads

  /** How much a call reads, in 32-bit arithmetic. */
  function ReadAmount(offset: U32, size: U32, fileSize: U32): U32 {
    if (offset + size) % WORD32 > fileSize then (fileSize - offset) % WORD32 else size
  }

  /** Where the offset is after a call. UINT32_MAX counts as bytes read if that much was asked. */
  function NextOffset(offset: U32, amount: U32, r: ReadResult): U32 {
    match r
    case Data(_) => (offset + amount) % WORD32
    case Invalid => if WORD32 - 1 <= amount then (offset + WORD32 - 1) % WORD32 else offset
    case Halted => offset
  }

  /** The size is cut to what is left of the file if and only if the sum does not wrap around. */
  lemma AmountIsCutIff(offset: U32, size: U32, fileSize: U32)
    requires offset <= fileSize
    ensures ReadAmount(offset, size, fileSize) == Smaller(size, fileSize - offset) <==> offset + size < WORD32
  {
    if offset + size >= WORD32 {
      assert (offset + size) % WORD32 == offset + size - WORD32;
    }
  }

  /** A read of all but one of the sizes there are, from offset 2 of a file of 100 bytes, is not cut. */
  lemma WrappedSum()
    ensures ReadAmount(2, 0xffff_fffe, 100) == 0xffff_fffe
  {
  }

  /** Calls with the given sizes, one after the other: everything read, and the last offset. */
  function ReadMany(v: Volume, cluster: nat, fileSize: U32, offset: U32, sizes: seq<U32>): (ReadResult, U32)
    requires ClusterSize(v) > 0
    decreases |sizes|
  {
    if sizes == [] then (Data([]), offset)
    else
      var amount := ReadAmount(offset, sizes[0], fileSize);
      var r := RawRead(v, cluster, offset, amount);
      var rest := ReadMany(v, cluster, fileSize, NextOffset(offset, amount, r), sizes[1..]);
      (if r.Data? then Prepend(r.bytes, rest.0) else r, rest.1)
  }

  function Sum(sizes: seq<U32>): nat {
    if sizes == [] then 0 else sizes[0] + Sum(sizes[1..])
  }

  /** Successive reads of a file give its bytes from the first offset on, without a gap or an
      overlap, up to its end and never past it. */
  lemma {:induction false} ReadsConcatenate(v: Volume, cluster: nat, n: nat, fileSize: U32, offset: U32,
                                            sizes: seq<U32>)
    requires ClusterSize(v) > 0 && WellFormed(v, cluster, n)
    requires offset <= fileSize <= n * ClusterSize(v)
    requires forall i :: 0 <= i < |sizes| ==> fileSize + sizes[i] < WORD32
    ensures var (all, last) := ReadMany(v, cluster, fileSize, offset, sizes);
      && last == Smaller(fileSize, offset + Sum(sizes))
      && all == Data(Contents(v, cluster, n)[offset..last])
    decreases |sizes|
  {
    hide ClusterSize, WellFormed, Contents, RawRead, Prepend, ReadAmount, NextOffset;
    if sizes == [] {
      assert Contents(v, cluster, n)[offset..offset] == [];
    } else {
      var amount := ReadAmount(offset, sizes[0], fileSize);
      AmountIsCutIff(offset, sizes[0], fileSize);
      ReadsSlice(v, cluster, n, offset, amount);
      var file, last := Contents(v, cluster, n), Smaller(fileSize, offset + Sum(sizes));
      OffsetMoves(offset, amount, file[offset..offset + amount]);
      assert forall i :: 0 <= i < |sizes| - 1 ==> sizes[1..][i] == sizes[i + 1];
      ReadsConcatenate(v, cluster, n, fileSize, offset + amount, sizes[1..]);
      Joins(file, offset, offset + amount, last);
    }
  }

  lemma OffsetMoves(offset: U32, amount: U32, bytes: seq<Byte>)
    requires offset + amount < WORD32
    ensures NextOffset(offset, amount, Data(bytes)) == offset + amount
  {
  }

  lemma Joins(s: seq<Byte>, i: nat, j: nat, k: nat)
    requires i <= j <= k <= |s|
    ensures Prepend(s[i..j], Data(s[j..k])) == Data(s[i..k])
  {
    assert s[i..j] + s[j..k] == s[i..k];
  }
}
