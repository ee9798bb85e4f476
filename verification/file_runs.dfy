/** Runs of open, close, fork and reaping, and what happens when a shared file entry is closed. */
module FileRuns {
  import opened ProcessModel
  import opened OpenFiles
  import opened FileCounts

  datatype FileAction =
    | Open(slot: Slot, place: int, file: DirEntry)
    | Close(slot: Slot, fd: Fd)
    | Fork(slot: Slot, child: Slot, page: bool, place: int, file: DirEntry)
    | Reap(slot: Slot)

  /** The program file of a new process is opened and closed by the child while its memory is
      copied; then the parent's descriptors are shared. `page` says whether there was a page
      for the program. */
  function ForkFiles(s: Files, parent: Slot, child: Slot, page: bool, d: int, file: DirEntry): (r: Files)
    requires Counts(s) && parent != child && EmptyFrom(s, child, 0) && NIL <= d < |s.inodes|
    ensures Counts(r)
  {
    if !page || OpenFd(s, child, d) == NIL then s
    else
      var s1 := OpenFile(s, child, d, file);
      var f := OpenFd(s, child, d);
      OpenKeepsCounts(s, child, d, file);
      OpenedAlone(s, child, d, file);
      var s2 := CloseFile(s1, child, f);
      CloseKeepsCountsIff(s1, child, f);
      OpenedClosed(s, child, d, file);
      ShareFrom(s2, parent, child, 0)
  }

  lemma OpenedAlone(s: Files, p: Slot, d: int, file: DirEntry)
    requires Shaped(s) && NIL <= d < |s.inodes| && OpenFd(s, p, d) != NIL
    ensures var f := OpenFd(s, p, d); var s' := OpenFile(s, p, d, file);
      s'.fds[p][f] == FindEntry(s.entries, 0) != NIL && s'.entries[s'.fds[p][f]].refs == 1
  {
  }

  /** open followed by close leaves the descriptors as they were. */
  lemma OpenedClosed(s: Files, p: Slot, d: int, file: DirEntry)
    requires Counts(s) && NIL <= d < |s.inodes| && OpenFd(s, p, d) != NIL
    requires Counts(OpenFile(s, p, d, file))
    ensures CloseFile(OpenFile(s, p, d, file), p, OpenFd(s, p, d)).fds == s.fds
  {
    hide Handles, Refs, EntryCounts, InodeCounts;
    var f := OpenFd(s, p, d);
    var s' := OpenFile(s, p, d, file);
    OpenedAlone(s, p, d, file);
    HeldEntry(s', p, f);
    assert s.fds[p][f := FindEntry(s.entries, 0)][f := NIL] == s.fds[p];
  }

  /** What fork does to the descriptors: the child's are the parent's. */
  lemma {:induction false} SharedRows(s: Files, parent: Slot, child: Slot, f: nat)
    requires Counts(s) && f <= MAX_OPEN_FILES && parent != child && EmptyFrom(s, child, f)
    ensures var r := ShareFrom(s, parent, child, f);
      && (forall q: Slot :: q != child ==> r.fds[q] == s.fds[q])
      && (forall g: Fd :: r.fds[child][g] == if f <= g then s.fds[parent][g] else s.fds[child][g])
    decreases MAX_OPEN_FILES - f
  {
    hide EntryCounts, InodeCounts, Linked;
    if f < MAX_OPEN_FILES {
      ShareKeepsCounts(s, parent, child, f);
      ShareEmpty(s, parent, child, f);
      SharedRows(ShareOne(s, parent, child, f), parent, child, f + 1);
    }
  }

  /** What reaping does to the descriptors: those of the dead process are gone. */
  lemma {:induction false} DroppedRows(s: Files, p: Slot, f: nat)
    requires Counts(s) && f <= MAX_OPEN_FILES
    ensures var r := DropFrom(s, p, f);
      && (forall q: Slot :: q != p ==> r.fds[q] == s.fds[q])
      && (forall g: Fd :: r.fds[p][g] == if f <= g then NIL else s.fds[p][g])
    decreases MAX_OPEN_FILES - f
  {
    hide EntryCounts, InodeCounts, Linked;
    if f < MAX_OPEN_FILES {
      DropKeepsCounts(s, p, f);
      DroppedRows(Drop(s, p, f), p, f + 1);
    }
  }

  // ----- runs

  /** close only of entries that are not shared; fork into a slot without descriptors. */
  predicate Allowed(s: Files, a: FileAction)
    requires Shaped(s)
  {
    match a
    case Open(p, d, _) => NIL <= d < |s.inodes|
    case Close(p, f) => s.fds[p][f] != NIL ==> s.entries[s.fds[p][f]].refs == 1
    case Fork(p, child, _, d, _) => p != child && EmptyFrom(s, child, 0) && NIL <= d < |s.inodes|
    case Reap(p) => true
  }

  function FileStep(s: Files, a: FileAction): (r: Files)
    requires Counts(s)
    ensures Counts(r)
  {
    if !Allowed(s, a) then s
    else
      match a
      case Open(p, d, file) => OpenKeepsCounts(s, p, d, file); OpenFile(s, p, d, file)
      case Close(p, f) => CloseKeeps(s, p, f); CloseFile(s, p, f)
      case Fork(p, child, page, d, file) => ForkFiles(s, p, child, page, d, file)
      case Reap(p) => DropFrom(s, p, 0)
  }

  lemma CloseKeeps(s: Files, p: Slot, f: Fd)
    requires Counts(s) && (s.fds[p][f] != NIL ==> s.entries[s.fds[p][f]].refs == 1)
    ensures Counts(CloseFile(s, p, f))
  {
    hide Handles, Refs, EntryCounts, InodeCounts, Linked;
    if s.fds[p][f] != NIL {
      CloseKeepsCountsIff(s, p, f);
    }
  }

  function FileRun(s: Files, acts: seq<FileAction>): (r: Files)
    requires Counts(s)
    ensures Counts(r)
    decreases |acts|
  {
    if acts == [] then s else FileRun(FileStep(s, acts[0]), acts[1..])
  }

  /** Before any file is opened. */
  predicate NoFiles(s: Files) {
    && |s.fds| == TABLE_SIZE && (forall p: Slot :: |s.fds[p]| == MAX_OPEN_FILES)
    && (forall p: Slot, f: Fd :: s.fds[p][f] == NIL)
    && (forall e :: 0 <= e < |s.entries| ==> s.entries[e] == Entry(NIL, 0, 0))
    && (forall n :: 0 <= n < |s.inodes| ==> s.inodes[n].refs == 0)
  }

  lemma {:induction false} NoRefs(entries: seq<Entry>, n: int)
    requires forall e :: 0 <= e < |entries| ==> entries[e].refs == 0
    ensures Refs(entries, n) == 0
  {
    if entries != [] {
      NoRefs(entries[1..], n);
    }
  }

  lemma NoFilesCounts(s: Files)
    requires NoFiles(s)
    ensures Counts(s)
  {
    hide Handles, Refs;
    assert EntryCounts(s) by {
      forall e | 0 <= e < |s.entries|
        ensures Handles(s.fds, e) == 0
      {
        forall p, f | 0 <= p < |s.fds| && 0 <= f < |s.fds[p]|
          ensures s.fds[p][f] != e
        {
          var q: Slot, g: Fd := p, f;
          assert s.fds[q][g] == NIL;
        }
        NoHandles(s.fds, e);
      }
    }
    assert InodeCounts(s) by {
      forall n | 0 <= n < |s.inodes|
        ensures Refs(s.entries, n) == 0
      {
        NoRefs(s.entries, n);
      }
    }
  }

  /** In every state that a run can reach, the count of an inode is the sum over its file
      entries, the count of an entry is the number of descriptors that hold it, and every
      descriptor leads to an inode. */
  lemma ReachableCounts(s: Files, acts: seq<FileAction>)
    requires NoFiles(s)
    ensures Counts(s)
    ensures var r := FileRun(s, acts);
      && (forall e :: 0 <= e < |r.entries| ==> r.entries[e].refs == Handles(r.fds, e))
      && (forall n :: 0 <= n < |r.inodes| ==> r.inodes[n].refs == Refs(r.entries, n))
      && (forall p: Slot, f: Fd :: r.fds[p][f] != NIL ==>
            0 <= r.fds[p][f] < |r.entries| && 0 <= r.entries[r.fds[p][f]].inode < |r.inodes|)
  {
    hide Handles, Refs;
    NoFilesCounts(s);
  }

  // ----- a shared entry that is closed

  /** Parent and child share an entry; the parent closes it, which leaves the parent's
      descriptor in place; then the child is reaped. The parent's descriptor now leads to an
      entry without an inode: to reap the parent is to follow a null pointer. */
  lemma SharedCloseDangles(s: Files, p: Slot, f: Fd, q: Slot, g: Fd)
    requires Counts(s) && (p != q || f != g) && s.fds[p][f] != NIL && s.fds[q][g] == s.fds[p][f]
    requires s.entries[s.fds[p][f]].refs == 2 && s.entries[s.fds[p][f]].inode != NIL
    requires s.inodes[s.entries[s.fds[p][f]].inode].refs == 2
    ensures var s1 := CloseFile(s, p, f);
      && Shaped(s1) && s1.fds[q][g] != NIL && s1.entries[s1.fds[q][g]].inode != NIL
      && var s2 := Drop(s1, q, g);
      s2.fds[p][f] != NIL && s2.entries[s2.fds[p][f]].inode == NIL
  {
    hide EntryCounts, InodeCounts;
    HeldEntry(s, p, f);
    var s1 := CloseFile(s, p, f);
    assert s1.fds == s.fds;
    assert forall e :: 0 <= e < |s.entries| ==> s1.entries[e].inode == s.entries[e].inode;
  }

  // ----- entries are not given back by close

  function FreeEntries(entries: seq<Entry>): nat {
    if entries == [] then 0 else (if entries[0].inode == NIL then 1 else 0) + FreeEntries(entries[1..])
  }

  lemma {:induction false} FreeUpdate(entries: seq<Entry>, e: nat, x: Entry)
    requires e < |entries|
    ensures FreeEntries(entries[e := x]) ==
      FreeEntries(entries) - (if entries[e].inode == NIL then 1 else 0) + (if x.inode == NIL then 1 else 0)
  {
    var t := entries[e := x];
    if e == 0 {
      assert t[1..] == entries[1..];
    } else {
      assert t[1..] == entries[1..][e-1 := x];
      FreeUpdate(entries[1..], e - 1, x);
    }
  }

  /** An open that succeeds takes a file entry for good: the close that undoes it on the
      descriptors and the inode does not make the entry free again. */
  lemma OpenCloseTakesEntry(s: Files, p: Slot, d: int, file: DirEntry)
    requires Counts(s) && NIL <= d < |s.inodes| && OpenFd(s, p, d) != NIL
    ensures var s' := CloseFile(OpenFile(s, p, d, file), p, OpenFd(s, p, d));
      && s'.fds == s.fds
      && (forall n :: 0 <= n < |s.inodes| ==> s'.inodes[n].refs == s.inodes[n].refs)
      && FreeEntries(s'.entries) == FreeEntries(s.entries) - 1
  {
    hide Handles, Refs, EntryCounts, InodeCounts, Linked, FreeEntries;
    OpenKeepsCounts(s, p, d, file);
    OpenedClosed(s, p, d, file);
    OpenedAlone(s, p, d, file);
    var e := FindEntry(s.entries, 0);
    var s1 := OpenFile(s, p, d, file);
    HeldEntry(s1, p, OpenFd(s, p, d));
    FreeUpdate(s.entries, e, s1.entries[e]);
    FreeUpdate(s1.entries, e, s1.entries[e].(refs := 0));
  }
}
