/** The three file tables of fs/file.c: descriptors of each process, file entries, inodes. Each
    reference count against the references that exist. */
module OpenFiles {
  import opened ProcessModel

  const MAX_OPEN_FILES: nat := 100

  datatype DirEntry = DirEntry(size: nat, cluster: nat)

  datatype Inode = Inode(size: nat, cluster: nat, refs: int)

  /** `inode` is NIL in an entry that is free. */
  datatype Entry = Entry(inode: int, offset: nat, refs: int)

  /** `fds[p][f]` is the file entry of descriptor `f` of slot `p`, or NIL. */
  datatype Files = Files(inodes: seq<Inode>, entries: seq<Entry>, fds: seq<seq<int>>)

  type Fd = f: int | 0 <= f < MAX_OPEN_FILES witness 0

  predicate Shaped(s: Files) {
    && |s.fds| == TABLE_SIZE
    && (forall p: Slot :: |s.fds[p]| == MAX_OPEN_FILES)
    && (forall p: Slot, f: Fd :: s.fds[p][f] == NIL || 0 <= s.fds[p][f] < |s.entries|)
    && (forall e :: 0 <= e < |s.entries| ==> s.entries[e].inode == NIL || 0 <= s.entries[e].inode < |s.inodes|)
  }

  // ----- operations

  function FindNil(row: seq<int>, i: nat): (r: int)
    requires i <= |row|
    ensures r == NIL || (i <= r < |row| && row[r] == NIL)
    ensures forall j :: i <= j < (if r == NIL then |row| else r) ==> row[j] != NIL
    decreases |row| - i
  {
    if i == |row| then NIL else if row[i] == NIL then i else FindNil(row, i + 1)
  }

  function FindEntry(entries: seq<Entry>, i: nat): (r: int)
    requires i <= |entries|
    ensures r == NIL || (i <= r < |entries| && entries[r].inode == NIL)
    ensures forall j :: i <= j < (if r == NIL then |entries| else r) ==> entries[j].inode != NIL
    decreases |entries| - i
  {
    if i == |entries| then NIL else if entries[i].inode == NIL then i else FindEntry(entries, i + 1)
  }

  /** One more reference to an inode; a free one is first filled from the directory. */
  function GetInode(inodes: seq<Inode>, d: nat, file: DirEntry): (r: seq<Inode>)
    requires d < |inodes|
  {
    var n := if inodes[d].refs == 0 then Inode(file.size, file.cluster, 0) else inodes[d];
    inodes[d := n.(refs := n.refs + 1)]
  }

  /** The descriptor that an open call gives, if there is a file, a descriptor and an entry. */
  function OpenFd(s: Files, p: Slot, d: int): int
    requires Shaped(s)
  {
    if FindNil(s.fds[p], 0) == NIL || FindEntry(s.entries, 0) == NIL || d == NIL then NIL else FindNil(s.fds[p], 0)
  }

  function SetFd(s: Files, p: Slot, f: Fd, e: int): Files
    requires |s.fds| == TABLE_SIZE && |s.fds[p]| == MAX_OPEN_FILES
  {
    s.(fds := s.fds[p := s.fds[p][f := e]])
  }

  /** `d` is the place in the root directory, or NIL if the name is not there. */
  function OpenFile(s: Files, p: Slot, d: int, file: DirEntry): Files
    requires Shaped(s) && NIL <= d < |s.inodes|
  {
    var f := OpenFd(s, p, d);
    if f == NIL then s
    else
      var e := FindEntry(s.entries, 0);
      SetFd(s, p, f, e).(inodes := GetInode(s.inodes, d, file), entries := s.entries[e := Entry(d, 0, 1)])
  }

  /** One reference less to an inode and its entry. */
  function Release(s: Files, e: nat): Files
    requires e < |s.entries| && NIL <= s.entries[e].inode < |s.inodes|
  {
    var x := s.entries[e];
    var n := x.inode;
    s.(entries := s.entries[e := x.(refs := x.refs - 1)],
       inodes := if n == NIL then s.inodes else s.inodes[n := s.inodes[n].(refs := s.inodes[n].refs - 1)])
  }

  /** The kernel halts if an inode to be released has no reference. */
  predicate CloseHalts(s: Files, p: Slot, f: int)
    requires Shaped(s) && f < MAX_OPEN_FILES
  {
    f >= 0 && s.fds[p][f] != NIL &&
    var n := s.entries[s.fds[p][f]].inode; n != NIL && s.inodes[n].refs <= 0
  }

  /** The descriptor is given up only with the last reference to the entry. */
  function CloseFile(s: Files, p: Slot, f: int): Files
    requires Shaped(s) && f < MAX_OPEN_FILES
  {
    if f < 0 || s.fds[p][f] == NIL || CloseHalts(s, p, f) then s
    else
      var e := s.fds[p][f];
      var s1 := Release(s, e);
      if s1.entries[e].refs == 0 then SetFd(s1, p, f, NIL) else s1
  }

  /** A call finds a file, a descriptor and an entry. */
  predicate CanOpen(s: Files, p: Slot, d: int)
    requires Shaped(s)
  {
    d != NIL && (exists f: Fd :: s.fds[p][f] == NIL) && (exists e :: 0 <= e < |s.entries| && s.entries[e].inode == NIL)
  }

  /** What an open call changes: the lowest free descriptor refers to the lowest free entry, which
      starts at offset 0 of the file with one reference; the inode has one more reference, and size
      and first cluster from the directory if it had none. All other rows, entries and inodes stay. */
  lemma OpenExact(s: Files, p: Slot, d: int, file: DirEntry)
    requires Shaped(s) && NIL <= d < |s.inodes|
    ensures var s', f := OpenFile(s, p, d, file), OpenFd(s, p, d);
      if !CanOpen(s, p, d) then s' == s && f == NIL
      else
        && 0 <= f < MAX_OPEN_FILES && s.fds[p][f] == NIL && (forall g: Fd :: g < f ==> s.fds[p][g] != NIL)
        && |s'.fds| == |s.fds| && |s'.fds[p]| == |s.fds[p]|
        && (forall q: Slot :: q != p ==> s'.fds[q] == s.fds[q])
        && (forall g: Fd :: g != f ==> s'.fds[p][g] == s.fds[p][g])
        && var e := s'.fds[p][f];
        && 0 <= e < |s.entries| && s.entries[e].inode == NIL && (forall x :: 0 <= x < e ==> s.entries[x].inode != NIL)
        && |s'.entries| == |s.entries| && s'.entries[e] == Entry(d, 0, 1)
        && (forall x :: 0 <= x < |s.entries| && x != e ==> s'.entries[x] == s.entries[x])
        && |s'.inodes| == |s.inodes| && s'.inodes[d].refs == s.inodes[d].refs + 1
        && (if s.inodes[d].refs == 0 then s'.inodes[d].size == file.size && s'.inodes[d].cluster == file.cluster
            else s'.inodes[d].size == s.inodes[d].size && s'.inodes[d].cluster == s.inodes[d].cluster)
        && (forall x :: 0 <= x < |s.inodes| && x != d ==> s'.inodes[x] == s.inodes[x])
  {
    var f, e := FindNil(s.fds[p], 0), FindEntry(s.entries, 0);
    if f == NIL {
      assert forall g: Fd :: s.fds[p][g] != NIL;
    }
  }

  // ----- counting

  function InRow(row: seq<int>, e: int): nat {
    if row == [] then 0 else (if row[0] == e then 1 else 0) + InRow(row[1..], e)
  }

  /** The descriptors that refer to a file entry. */
  function Handles(fds: seq<seq<int>>, e: int): nat {
    if fds == [] then 0 else InRow(fds[0], e) + Handles(fds[1..], e)
  }

  /** The references to an inode, summed over the file entries. */
  function Refs(entries: seq<Entry>, n: int): int {
    if entries == [] then 0 else (if entries[0].inode == n then entries[0].refs else 0) + Refs(entries[1..], n)
  }

  ghost predicate EntryCounts(s: Files) {
    forall e :: 0 <= e < |s.entries| ==> s.entries[e].refs == Handles(s.fds, e)
  }

  ghost predicate InodeCounts(s: Files) {
    forall n :: 0 <= n < |s.inodes| ==> s.inodes[n].refs == Refs(s.entries, n)
  }

  /** No descriptor refers to an entry without an inode. */
  predicate Linked(s: Files)
    requires Shaped(s)
  {
    forall p: Slot, f: Fd :: s.fds[p][f] != NIL ==> s.entries[s.fds[p][f]].inode != NIL
  }

  /** Every reference count is the number of references. */
  ghost predicate Counts(s: Files) {
    Shaped(s) && Linked(s) && EntryCounts(s) && InodeCounts(s)
  }

  lemma {:induction false} InRowUpdate(row: seq<int>, f: nat, x: int, e: int)
    requires f < |row|
    ensures InRow(row[f := x], e) == InRow(row, e) - (if row[f] == e then 1 else 0) + (if x == e then 1 else 0)
  {
    var row' := row[f := x];
    if f == 0 {
      assert row'[1..] == row[1..];
    } else {
      assert row'[1..] == row[1..][f-1 := x];
      InRowUpdate(row[1..], f - 1, x, e);
    }
  }

  lemma {:induction false} HandlesUpdate(fds: seq<seq<int>>, p: nat, row: seq<int>, e: int)
    requires p < |fds|
    ensures Handles(fds[p := row], e) == Handles(fds, e) - InRow(fds[p], e) + InRow(row, e)
  {
    hide InRow;
    var fds' := fds[p := row];
    if p == 0 {
      assert fds'[1..] == fds[1..];
    } else {
      assert fds'[1..] == fds[1..][p-1 := row];
      HandlesUpdate(fds[1..], p - 1, row, e);
    }
  }

  lemma SetFdHandles(s: Files, p: Slot, f: Fd, x: int, e: int)
    requires |s.fds| == TABLE_SIZE && |s.fds[p]| == MAX_OPEN_FILES
    ensures Handles(SetFd(s, p, f, x).fds, e) ==
      Handles(s.fds, e) - (if s.fds[p][f] == e then 1 else 0) + (if x == e then 1 else 0)
  {
    hide InRow, Handles;
    InRowUpdate(s.fds[p], f, x, e);
    HandlesUpdate(s.fds, p, s.fds[p][f := x], e);
  }

  lemma {:induction false} RefsUpdate(entries: seq<Entry>, e: nat, x: Entry, n: int)
    requires e < |entries|
    ensures Refs(entries[e := x], n) ==
      Refs(entries, n) - (if entries[e].inode == n then entries[e].refs else 0) + (if x.inode == n then x.refs else 0)
  {
    var t := entries[e := x];
    if e == 0 {
      assert t[1..] == entries[1..];
    } else {
      assert t[1..] == entries[1..][e-1 := x];
      RefsUpdate(entries[1..], e - 1, x, n);
    }
  }

  lemma {:induction false} InRowAt(row: seq<int>, f: nat)
    requires f < |row|
    ensures InRow(row, row[f]) > 0
  {
    if f != 0 {
      InRowAt(row[1..], f - 1);
    }
  }

  /** A descriptor in use counts. */
  lemma {:induction false} HandlesAt(fds: seq<seq<int>>, p: nat, f: nat)
    requires p < |fds| && f < |fds[p]|
    ensures Handles(fds, fds[p][f]) > 0
  {
    hide InRow;
    if p == 0 {
      InRowAt(fds[0], f);
    } else {
      HandlesAt(fds[1..], p - 1, f);
    }
  }

  lemma {:induction false} RefsAtLeast(entries: seq<Entry>, e: nat)
    requires e < |entries| && forall i :: 0 <= i < |entries| ==> entries[i].refs >= 0
    ensures 0 <= entries[e].refs <= Refs(entries, entries[e].inode)
  {
    if e != 0 {
      RefsAtLeast(entries[1..], e - 1);
    } else {
      RefsNotNegative(entries[1..], entries[0].inode);
    }
  }

  lemma {:induction false} RefsNotNegative(entries: seq<Entry>, n: int)
    requires forall i :: 0 <= i < |entries| ==> entries[i].refs >= 0
    ensures Refs(entries, n) >= 0
  {
    if entries != [] {
      RefsNotNegative(entries[1..], n);
    }
  }
}
