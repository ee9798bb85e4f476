/** The file tables of the kernel as fs/file.c keeps them, updated in place. */
module FileTables {
  import opened ProcessModel
  import opened CTypes
  import opened FatReads
  import opened OpenFiles
  import opened FileCounts
  import opened FileRuns
  import opened FileReads

  class FileTable {
    const volume: Volume
    const inodes: array<Inode>
    const entries: array<Entry>
    const fds: array2<int>
    /** Which slots are not UNUSED: the descriptors of the others are left over. */
    const used: array<bool>
    ghost var files: Files

    ghost predicate Valid()
      reads this, inodes, entries, fds, used
    {
      && fds.Length0 == TABLE_SIZE && fds.Length1 == MAX_OPEN_FILES && used.Length == TABLE_SIZE
      && Shaped(files) && inodes[..] == files.inodes && entries[..] == files.entries
      && forall p: Slot :: Row(p)
    }

    /** Boot: both tables are cleared. */
    constructor (v: Volume, inodeCount: nat, entryCount: nat)
      ensures Valid() && NoFiles(files) && volume == v && inodes.Length == inodeCount && entries.Length == entryCount
      ensures fresh(inodes) && fresh(entries) && fresh(fds) && fresh(used) && forall p: Slot :: !used[p]
    {
      volume := v;
      inodes := new Inode[inodeCount](i => Inode(0, 0, 0));
      entries := new Entry[entryCount](i => Entry(NIL, 0, 0));
      fds := new int[TABLE_SIZE, MAX_OPEN_FILES]((p, f) => NIL);
      used := new bool[TABLE_SIZE](i => false);
      files := Files(seq(inodeCount, i => Inode(0, 0, 0)), seq(entryCount, i => Entry(NIL, 0, 0)),
                     seq(TABLE_SIZE, p => seq(MAX_OPEN_FILES, f => NIL)));
    }

    ghost predicate Row(p: Slot)
      requires fds.Length0 == TABLE_SIZE && fds.Length1 == MAX_OPEN_FILES && used.Length == TABLE_SIZE && Shaped(files)
      reads this, fds, used
    {
      if used[p] then forall f: Fd :: fds[p, f] == files.fds[p][f] else EmptyFrom(files, p, 0)
    }

    /** The first free descriptor of a process. */
    method FreeFd(p: Slot) returns (r: int)
      requires Valid() && used[p]
      ensures r == FindNil(files.fds[p], 0)
    {
      assert Row(p);
      var i := 0;
      while i < MAX_OPEN_FILES
        invariant 0 <= i <= MAX_OPEN_FILES && FindNil(files.fds[p], i) == FindNil(files.fds[p], 0)
      {
        if fds[p, i] == NIL {
          return i;
        }
        i := i + 1;
      }
      return NIL;
    }

    /** The first entry of the global table without an inode. */
    method FreeEntry() returns (r: int)
      requires Valid()
      ensures r == FindEntry(files.entries, 0)
    {
      var i := 0;
      while i < entries.Length
        invariant 0 <= i <= entries.Length && FindEntry(files.entries, i) == FindEntry(files.entries, 0)
      {
        if entries[i].inode == NIL {
          return i;
        }
        i := i + 1;
      }
      return NIL;
    }

    /** `d` is what the search of the root directory gives, `file` what is found there. */
    method Open(p: Slot, d: int, file: DirEntry) returns (fd: int)
      requires Valid() && used[p] && NIL <= d < inodes.Length
      modifies this`files, inodes, entries, fds
      ensures Valid() && files == OpenFile(old(files), p, d, file) && fd == OpenFd(old(files), p, d)
    {
      hide FindNil, FindEntry;
      ghost var s := files;
      assert Row(p);
      fd := FreeFd(p);
      if fd == NIL {
        return;
      }
      var e := FreeEntry();
      if e == NIL || d == NIL {
        return NIL;
      }
      OpenShaped(s, p, d, file);
      if inodes[d].refs == 0 {
        inodes[d] := Inode(file.size, file.cluster, 0);
      }
      inodes[d] := inodes[d].(refs := inodes[d].refs + 1);
      entries[e] := Entry(d, 0, 1);
      fds[p, fd] := e;
      files := OpenFile(files, p, d, file);
      SetFdRows(s, p, fd, e);
      forall q: Slot
        ensures Row(q)
      {
        assert old(Row(q));
      }
    }

    method Close(p: Slot, fd: int)
      requires Valid() && used[p] && fd < MAX_OPEN_FILES && !CloseHalts(files, p, fd)
      modifies this`files, inodes, entries, fds
      ensures Valid() && files == CloseFile(old(files), p, fd)
    {
      ghost var s := files;
      assert Row(p);
      if fd < 0 || fds[p, fd] == NIL {
        return;
      }
      CloseShaped(s, p, fd);
      var e := fds[p, fd];
      var n := entries[e].inode;
      if n != NIL {
        inodes[n] := inodes[n].(refs := inodes[n].refs - 1);
      }
      entries[e] := entries[e].(refs := entries[e].refs - 1);
      if entries[e].refs == 0 {
        fds[p, fd] := NIL;
      }
      files := CloseFile(files, p, fd);
      SetFdRows(s, p, fd, NIL);
      forall q: Slot
        ensures Row(q)
      {
        assert old(Row(q));
      }
    }

    ghost predicate Counted()
      reads this, inodes, entries
    {
      Counts(files) && inodes[..] == files.inodes && entries[..] == files.entries
    }

    /** One turn of the reaping loop. */
    method DropOne(p: Slot, f: Fd)
      requires Counted() && fds.Length0 == TABLE_SIZE && fds.Length1 == MAX_OPEN_FILES && fds[p, f] == files.fds[p][f]
      modifies this`files, inodes, entries
      ensures Counted() && old(Counts(files)) && files == Drop(old(files), p, f)
    {
      hide EntryCounts, InodeCounts;
      DropKeepsCounts(files, p, f);
      var e := fds[p, f];
      if e != NIL {
        var n := entries[e].inode;
        entries[e] := entries[e].(refs := entries[e].refs - 1);
        inodes[n] := inodes[n].(refs := inodes[n].refs - 1);
        if inodes[n].refs == 0 {
          entries[e] := entries[e].(inode := NIL);
        }
      }
      files := Drop(files, p, f);
    }

    /** The descriptors of a zombie are released; the table row itself stays as it is. */
    method Reap(p: Slot)
      requires Valid() && used[p] && Counts(files)
      modifies this`files, inodes, entries, used
      ensures Valid() && !used[p] && files == DropFrom(old(files), p, 0)
      ensures forall q: Slot :: q != p ==> used[q] == old(used[q])
    {
      hide Counts, Linked, Drop;
      assert Row(p);
      ghost var s := files;
      var i := 0;
      while i < MAX_OPEN_FILES
        invariant 0 <= i <= MAX_OPEN_FILES && Counted() && Shaped(files)
        invariant DropFrom(files, p, i) == DropFrom(s, p, 0)
        invariant forall q: Slot :: used[q] == old(used[q])
        invariant forall f: Fd :: i <= f ==> files.fds[p][f] == fds[p, f]
      {
        ghost var was := files;
        DropKeepsCounts(was, p, i);
        DropOne(p, i);
        CountsShaped(files);
        DropRow(was, p, i);
        i := i + 1;
      }
      DroppedRows(s, p, 0);
      used[p] := false;
      forall q: Slot
        ensures Row(q)
      {
        assert old(Row(q));
      }
    }

    /** fork's part: a slot with an empty row; the program file opened and closed; the parent's
        descriptors copied, each with one more reference. */
    method Fork(parent: Slot, child: Slot, page: bool, d: int, file: DirEntry) returns (ok: bool)
      requires Valid() && Counts(files) && used[parent] && !used[child] && NIL <= d < inodes.Length
      modifies this`files, inodes, entries, fds, used
      ensures Valid() && EmptyFrom(old(files), child, 0) && files == ForkFiles(old(files), parent, child, page, d, file)
      ensures ok == (page && OpenFd(old(files), child, d) != NIL)
      ensures used[child] && forall q: Slot :: q != child ==> used[q] == old(used[q])
    {
      hide Counts, FindNil, FindEntry, Linked, Shaped, OpenFile, CloseFile, OpenFd;
      ghost var s := files;
      assert Row(child);
      used[child] := true;
      ClearRow(child);
      assert Valid() by {
        forall q: Slot
          ensures Row(q)
        {
          assert old(Row(q));
        }
      }
      if !page {
        return false;
      }
      OpenKeepsCounts(s, child, d, file);
      var fd := Open(child, d, file);
      if fd < 0 {
        OpenFdRange(s, child, d);
        OpenNothing(s, child, d, file);
        return false;
      }
      OpenedAlone(s, child, d, file);
      OpenFdRange(s, child, d);
      CloseKeepsCountsIff(files, child, fd);
      Close(child, fd);
      OpenedClosed(s, child, d, file);
      CopyRow(parent, child);
      ok := true;
    }

    /** memset of the descriptors of a new slot. */
    method ClearRow(p: Slot)
      requires Shaped(files) && fds.Length0 == TABLE_SIZE && fds.Length1 == MAX_OPEN_FILES
      modifies fds
      ensures forall f: Fd :: fds[p, f] == NIL
      ensures forall q: Slot, f: Fd :: q != p ==> fds[q, f] == old(fds[q, f])
    {
      var i := 0;
      while i < MAX_OPEN_FILES
        invariant 0 <= i <= MAX_OPEN_FILES
        invariant forall f: Fd :: f < i ==> fds[p, f] == NIL
        invariant forall q: Slot, f: Fd :: q != p ==> fds[q, f] == old(fds[q, f])
      {
        fds[p, i] := NIL;
        i := i + 1;
      }
    }

    /** One turn of the counting loop of fork. */
    method CountOne(parent: Slot, child: Slot, f: Fd)
      requires Counted() && fds.Length0 == TABLE_SIZE && fds.Length1 == MAX_OPEN_FILES
      requires fds[child, f] == files.fds[parent][f] && files.fds[child][f] == NIL
      modifies this`files, inodes, entries
      ensures Counted() && old(Counts(files)) && files == ShareOne(old(files), parent, child, f)
    {
      hide EntryCounts, InodeCounts;
      ShareKeepsCounts(files, parent, child, f);
      var e := fds[child, f];
      if e != NIL {
        var n := entries[e].inode;
        entries[e] := entries[e].(refs := entries[e].refs + 1);
        inodes[n] := inodes[n].(refs := inodes[n].refs + 1);
      }
      files := ShareOne(files, parent, child, f);
    }

    method CopyRow(parent: Slot, child: Slot)
      requires Valid() && Counts(files) && used[parent] && used[child] && parent != child && EmptyFrom(files, child, 0)
      modifies this`files, inodes, entries, fds
      ensures Valid() && files == ShareFrom(old(files), parent, child, 0)
    {
      hide Counts, Linked, ShareOne;
      assert Row(parent) && Row(child);
      ghost var s := files;
      forall f: Fd {
        fds[child, f] := fds[parent, f];
      }
      var i := 0;
      while i < MAX_OPEN_FILES
        invariant 0 <= i <= MAX_OPEN_FILES && Counted() && Shaped(files) && EmptyFrom(files, child, i)
        invariant ShareFrom(files, parent, child, i) == ShareFrom(s, parent, child, 0)
        invariant forall q: Slot, f: Fd :: q != child ==> fds[q, f] == old(fds[q, f])
        invariant forall f: Fd :: files.fds[parent][f] == fds[child, f]
      {
        ghost var was := files;
        ShareKeepsCounts(was, parent, child, i);
        CountOne(parent, child, i);
        ShareEmpty(was, parent, child, i);
        CountsShaped(files);
        ShareRow(was, parent, child, i);
        i := i + 1;
      }
      SharedRows(s, parent, child, 0);
      forall q: Slot
        ensures Row(q)
      {
        assert old(Row(q));
      }
    }

    /** read_file: the size is cut to what is left of the file, and the offset in the shared
        entry moves by what was read. */
    method Read(p: Slot, fd: Fd, buf: array<Byte>, size: U32) returns (r: ReadEnd)
      requires Valid() && used[p] && ClusterSize(volume) > 0
      requires files.fds[p][fd] != NIL && files.entries[files.fds[p][fd]].inode != NIL
      requires var x := files.entries[files.fds[p][fd]]; var n := files.inodes[x.inode];
        x.offset < WORD32 && n.size < WORD32 && ReadAmount(x.offset, size, n.size) <= buf.Length
      modifies this`files, entries, buf
      ensures var e := old(files).fds[p][fd]; var x := old(files).entries[e]; var n := old(files).inodes[x.inode];
        var amount := ReadAmount(x.offset, size, n.size); var spec := RawRead(volume, n.cluster, x.offset, amount);
        && Delivered(spec, r, amount, old(buf[..]), buf[..])
        && files == old(files).(entries := old(files).entries[e := x.(offset := NextOffset(x.offset, amount, spec))])
      ensures Valid()
    {
      hide RawRead, Delivered;
      assert Row(p);
      var e := fds[p, fd];
      var x := entries[e];
      var n := inodes[x.inode];
      var amount: U32 := size;
      if (x.offset + size) % WORD32 > n.size {
        amount := (n.size - x.offset) % WORD32;
      }
      ghost var before: seq<Byte> := buf[..];
      r := ReadRawData(volume, n.cluster, buf, x.offset, amount);
      DeliveredKind(RawRead(volume, n.cluster, x.offset, amount), r, amount, before, buf[..]);
      match r {
        case ReadBytes(count) =>
          entries[e] := x.(offset := (x.offset + count) % WORD32);
        case ReadInvalid =>
          if WORD32 - 1 <= amount {
            entries[e] := x.(offset := (x.offset + WORD32 - 1) % WORD32);
          }
        case ReadHalted =>
      }
      files := files.(entries := entries[..]);
      forall q: Slot
        ensures Row(q)
      {
        assert old(Row(q));
      }
    }
  }

  lemma CountsShaped(s: Files)
    requires Counts(s)
    ensures Shaped(s)
  {
    hide Shaped, Linked, EntryCounts, InodeCounts;
  }

  lemma SetFdRows(s: Files, p: Slot, f: Fd, e: int)
    requires Shaped(s)
    ensures forall q: Slot, g: Fd :: SetFd(s, p, f, e).fds[q][g] == if q == p && g == f then e else s.fds[q][g]
  {
  }

  lemma OpenShaped(s: Files, p: Slot, d: int, file: DirEntry)
    requires Shaped(s) && NIL <= d < |s.inodes|
    ensures Shaped(OpenFile(s, p, d, file))
  {
    if OpenFd(s, p, d) != NIL {
      SetFdRows(s, p, OpenFd(s, p, d), FindEntry(s.entries, 0));
    }
  }

  lemma CloseShaped(s: Files, p: Slot, f: Fd)
    requires Shaped(s)
    ensures Shaped(CloseFile(s, p, f))
  {
    SetFdRows(s, p, f, NIL);
  }

  lemma OpenNothing(s: Files, p: Slot, d: int, file: DirEntry)
    requires Shaped(s) && NIL <= d < |s.inodes| && OpenFd(s, p, d) == NIL
    ensures OpenFile(s, p, d, file) == s
  {
  }

  lemma DeliveredKind(spec: ReadResult, r: ReadEnd, size: nat, before: seq<Byte>, after: seq<Byte>)
    requires size <= |before| && Delivered(spec, r, size, before, after)
    ensures match spec
      case Invalid => r == ReadInvalid
      case Halted => r == ReadHalted
      case Data(_) => r == ReadBytes(size)
  {
  }

  lemma OpenFdRange(s: Files, p: Slot, d: int)
    requires Shaped(s)
    ensures NIL <= OpenFd(s, p, d) < MAX_OPEN_FILES
  {
  }

  lemma DropRow(s: Files, p: Slot, f: Fd)
    requires Shaped(s) && (s.fds[p][f] != NIL ==> s.entries[s.fds[p][f]].inode != NIL)
    requires Shaped(Drop(s, p, f))
    ensures forall g: Fd :: g != f ==> Drop(s, p, f).fds[p][g] == s.fds[p][g]
  {
  }

  lemma ShareRow(s: Files, parent: Slot, child: Slot, f: Fd)
    requires Shaped(s) && (s.fds[parent][f] != NIL ==> s.entries[s.fds[parent][f]].inode != NIL) && parent != child
    requires Shaped(ShareOne(s, parent, child, f))
    ensures ShareOne(s, parent, child, f).fds[parent] == s.fds[parent]
  {
  }
}
