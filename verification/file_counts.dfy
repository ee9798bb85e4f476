/** Reference counts over open, close, fork and reaping. */
module FileCounts {
  import opened ProcessModel
  import opened OpenFiles

  // ----- reaping

  /** One turn of the reaping loop: a reference less, and an inode without references is
      unlinked from the entry. The descriptor of the dead process no longer counts. */
  function Drop(s: Files, p: Slot, f: Fd): Files
    requires Shaped(s) && (s.fds[p][f] != NIL ==> s.entries[s.fds[p][f]].inode != NIL)
  {
    var e := s.fds[p][f];
    if e == NIL then s
    else
      var n := s.entries[e].inode;
      var s1 := Release(s, e);
      var s2 := if s1.inodes[n].refs == 0 then s1.(entries := s1.entries[e := s1.entries[e].(inode := NIL)]) else s1;
      SetFd(s2, p, f, NIL)
  }

  /** One turn of the loop in fork. */
  function ShareOne(s: Files, parent: Slot, child: Slot, f: Fd): Files
    requires Shaped(s) && (s.fds[parent][f] != NIL ==> s.entries[s.fds[parent][f]].inode != NIL)
  {
    var e := s.fds[parent][f];
    if e == NIL then s
    else
      var x := s.entries[e];
      var n := x.inode;
      SetFd(s.(entries := s.entries[e := x.(refs := x.refs + 1)],
               inodes := s.inodes[n := s.inodes[n].(refs := s.inodes[n].refs + 1)]), child, f, e)
  }

  // ----- what one change does to the counts

  lemma {:induction false} NoHandles(fds: seq<seq<int>>, e: int)
    requires forall p, f :: 0 <= p < |fds| && 0 <= f < |fds[p]| ==> fds[p][f] != e
    ensures Handles(fds, e) == 0
  {
    if fds != [] {
      NotInRow(fds[0], e);
      NoHandles(fds[1..], e);
    }
  }

  lemma {:induction false} NotInRow(row: seq<int>, e: int)
    requires forall f :: 0 <= f < |row| ==> row[f] != e
    ensures InRow(row, e) == 0
  {
    if row != [] {
      NotInRow(row[1..], e);
    }
  }

  /** An entry without an inode has no reference. */
  lemma FreeEntryUnused(s: Files, e: nat)
    requires Counts(s) && e < |s.entries| && s.entries[e].inode == NIL
    ensures s.entries[e].refs == 0 && Handles(s.fds, e) == 0
    ensures forall p: Slot, f: Fd :: s.fds[p][f] != e
  {
    hide Handles, InodeCounts;
    forall p, f | 0 <= p < |s.fds| && 0 <= f < |s.fds[p]|
      ensures s.fds[p][f] != e
    {
      var q: Slot, g: Fd := p, f;
      assert s.fds[q][g] != NIL ==> s.entries[s.fds[q][g]].inode != NIL;
    }
    NoHandles(s.fds, e);
  }

  lemma HeldEntry(s: Files, p: Slot, f: Fd)
    requires Counts(s) && s.fds[p][f] != NIL
    ensures var e := s.fds[p][f]; var n := s.entries[e].inode;
      n != NIL && s.entries[e].refs >= 1 && s.inodes[n].refs >= s.entries[e].refs
  {
    hide Handles, Refs, InodeCounts;
    var e := s.fds[p][f];
    HandlesAt(s.fds, p, f);
    assert s.entries[e].refs == Handles(s.fds, e);
    InodeCovers(s, e);
  }

  lemma InodeCovers(s: Files, e: nat)
    requires Counts(s) && e < |s.entries| && s.entries[e].inode != NIL
    ensures s.inodes[s.entries[e].inode].refs >= s.entries[e].refs >= 0
  {
    hide Handles, Refs, Linked;
    NotNegative(s);
    RefsAtLeast(s.entries, e);
  }

  lemma NotNegative(s: Files)
    requires EntryCounts(s)
    ensures forall i :: 0 <= i < |s.entries| ==> s.entries[i].refs >= 0
  {
    hide Handles;
  }

  /** A descriptor and both reference counts change together by the same amount. */
  lemma MoveCounts(s: Files, s': Files, p: Slot, f: Fd, e: nat, d: nat, step: int)
    requires Counts(s) && Shaped(s') && Linked(s') && e < |s.entries| && d < |s.inodes|
    requires |s'.inodes| == |s.inodes| && |s'.entries| == |s.entries|
    requires step == 1 ==> s.fds[p][f] == NIL && s'.fds == SetFd(s, p, f, e).fds
    requires step == -1 ==> s.fds[p][f] == e && s'.fds == SetFd(s, p, f, NIL).fds
    requires step == 1 || step == -1
    requires s'.entries == s.entries[e := s'.entries[e]]
    requires s'.entries[e].refs == s.entries[e].refs + step
    requires s.entries[e].inode == d || (s.entries[e].inode == NIL && s'.entries[e].inode == d)
    requires s'.entries[e].inode == d || (s'.entries[e].inode == NIL && s'.entries[e].refs == 0)
    requires s'.inodes == s.inodes[d := s'.inodes[d]] && s'.inodes[d].refs == s.inodes[d].refs + step
    ensures Counts(s')
  {
    hide Handles, Refs, Linked, Shaped, InRow;
    forall i | 0 <= i < |s'.entries|
      ensures s'.entries[i].refs == Handles(s'.fds, i)
    {
      MoveHandles(s, s', p, f, e, step, i);
      assert s.entries[i].refs == Handles(s.fds, i);
    }
    forall n | 0 <= n < |s'.inodes|
      ensures s'.inodes[n].refs == Refs(s'.entries, n)
    {
      RefsUpdate(s.entries, e, s'.entries[e], n);
      EntryZero(s, e);
      assert s.inodes[n].refs == Refs(s.entries, n);
    }
  }

  lemma MoveHandles(s: Files, s': Files, p: Slot, f: Fd, e: nat, step: int, i: nat)
    requires Shaped(s)
    requires step == 1 ==> s.fds[p][f] == NIL && s'.fds == SetFd(s, p, f, e).fds
    requires step == -1 ==> s.fds[p][f] == e && s'.fds == SetFd(s, p, f, NIL).fds
    requires step == 1 || step == -1
    ensures Handles(s'.fds, i) == Handles(s.fds, i) + if i == e then step else 0
  {
    hide Handles;
    SetFdHandles(s, p, f, if step == 1 then e else NIL, i);
  }

  lemma EntryZero(s: Files, e: nat)
    requires Counts(s) && e < |s.entries|
    ensures s.entries[e].inode == NIL ==> s.entries[e].refs == 0
  {
    if s.entries[e].inode == NIL {
      FreeEntryUnused(s, e);
    }
  }

  // ----- open

  lemma OpenKeepsCounts(s: Files, p: Slot, d: int, file: DirEntry)
    requires Counts(s) && NIL <= d < |s.inodes|
    ensures Counts(OpenFile(s, p, d, file))
  {
    hide Handles, Refs, EntryCounts, InodeCounts;
    var f := OpenFd(s, p, d);
    if f != NIL {
      var e := FindEntry(s.entries, 0);
      var s' := OpenFile(s, p, d, file);
      FreeEntryUnused(s, e);
      OpenShape(s, p, d, file);
      MoveCounts(s, s', p, f, e, d, 1);
    }
  }

  lemma OpenShape(s: Files, p: Slot, d: int, file: DirEntry)
    requires Shaped(s) && Linked(s) && NIL <= d < |s.inodes| && OpenFd(s, p, d) != NIL
    ensures Shaped(OpenFile(s, p, d, file)) && Linked(OpenFile(s, p, d, file))
  {
    var s' := OpenFile(s, p, d, file);
    var f := OpenFd(s, p, d);
    var e := FindEntry(s.entries, 0);
    forall q: Slot, g: Fd
      ensures s'.fds[q][g] == if q == p && g == f then e else s.fds[q][g]
    {
    }
  }

  // ----- close

  /** close of a descriptor in use meets no failed assertion, and it keeps the counts right if
      and only if the file entry is not shared. */
  lemma CloseKeepsCountsIff(s: Files, p: Slot, f: Fd)
    requires Counts(s) && s.fds[p][f] != NIL
    ensures !CloseHalts(s, p, f)
    ensures Counts(CloseFile(s, p, f)) <==> s.entries[s.fds[p][f]].refs == 1
  {
    hide Handles, Refs, EntryCounts, InodeCounts, Linked;
    HeldEntry(s, p, f);
    var e := s.fds[p][f];
    var n := s.entries[e].inode;
    var s' := CloseFile(s, p, f);
    if s.entries[e].refs == 1 {
      CloseShape(s, p, f);
      MoveCounts(s, s', p, f, e, n, -1);
    } else {
      assert s'.fds == s.fds && s'.entries[e].refs == s.entries[e].refs - 1;
      CountsDiffer(s, s', e);
    }
  }

  lemma CountsDiffer(s: Files, s': Files, e: nat)
    requires Counts(s) && s'.fds == s.fds && e < |s.entries| && |s'.entries| == |s.entries|
    requires s'.entries[e].refs != s.entries[e].refs
    ensures !Counts(s')
  {
    hide Handles, Refs, InodeCounts, Linked, Shaped;
    assert s.entries[e].refs == Handles(s.fds, e);
  }

  lemma CloseShape(s: Files, p: Slot, f: Fd)
    requires Shaped(s) && Linked(s) && s.fds[p][f] != NIL
    ensures Shaped(CloseFile(s, p, f)) && Linked(CloseFile(s, p, f))
  {
    var s' := CloseFile(s, p, f);
    forall q: Slot, g: Fd
      ensures s'.fds[q][g] == s.fds[q][g] || s'.fds[q][g] == NIL
    {
    }
    forall e | 0 <= e < |s.entries|
      ensures s'.entries[e].inode == s.entries[e].inode
    {
    }
  }

  // ----- reaping

  lemma DropShape(s: Files, p: Slot, f: Fd)
    requires Counts(s) && s.fds[p][f] != NIL
    ensures s.entries[s.fds[p][f]].inode != NIL && Shaped(Drop(s, p, f))
  {
    hide EntryCounts, InodeCounts;
    var s' := Drop(s, p, f);
    forall q: Slot, g: Fd
      ensures s'.fds[q][g] == if q == p && g == f then NIL else s.fds[q][g]
    {
    }
  }

  /** When the last reference to an inode goes, no other descriptor refers to the entry. */
  lemma LastReference(s: Files, p: Slot, f: Fd, q: Slot, g: Fd)
    requires Counts(s) && s.fds[p][f] != NIL && (q != p || g != f) && s.fds[q][g] == s.fds[p][f]
    ensures s.entries[s.fds[p][f]].inode != NIL && s.inodes[s.entries[s.fds[p][f]].inode].refs >= 2
  {
    hide Handles, InodeCounts, Linked, InRow;
    var e := s.fds[p][f];
    var s' := SetFd(s, p, f, NIL);
    SetFdHandles(s, p, f, NIL, e);
    HandlesAt(s'.fds, q, g);
    assert s'.fds[q][g] == e;
    assert s.entries[e].refs == Handles(s.fds, e);
    HeldEntry(s, p, f);
  }

  lemma DropLinked(s: Files, p: Slot, f: Fd)
    requires Counts(s) && s.fds[p][f] != NIL && Shaped(Drop(s, p, f))
    ensures Linked(Drop(s, p, f))
  {
    hide EntryCounts, InodeCounts;
    var s' := Drop(s, p, f);
    var e := s.fds[p][f];
    forall q: Slot, g: Fd | s'.fds[q][g] != NIL
      ensures s'.entries[s'.fds[q][g]].inode != NIL
    {
      assert (q != p || g != f) && s'.fds[q][g] == s.fds[q][g];
      if s.fds[q][g] == e {
        LastReference(s, p, f, q, g);
      }
    }
  }

  /** The inode of an entry is cleared only when the entry has no reference left. */
  lemma DropEntry(s: Files, p: Slot, f: Fd)
    requires Counts(s) && s.fds[p][f] != NIL
    ensures s.entries[s.fds[p][f]].inode != NIL
    ensures var e, s' := s.fds[p][f], Drop(s, p, f);
      s'.entries[e].inode == NIL ==> s'.entries[e].refs == 0
  {
    hide EntryCounts, InodeCounts, Linked, Handles;
    HeldEntry(s, p, f);
    InodeCovers(s, s.fds[p][f]);
  }

  /** Reaping one descriptor keeps the counts, and never meets an entry without an inode. */
  lemma DropKeepsCounts(s: Files, p: Slot, f: Fd)
    requires Counts(s)
    ensures s.fds[p][f] != NIL ==> s.entries[s.fds[p][f]].inode != NIL
    ensures Counts(Drop(s, p, f))
  {
    hide Handles, Refs, EntryCounts, InodeCounts;
    if s.fds[p][f] != NIL {
      var e := s.fds[p][f];
      var n := s.entries[e].inode;
      var s' := Drop(s, p, f);
      HeldEntry(s, p, f);
      DropShape(s, p, f);
      DropLinked(s, p, f);
      DropEntry(s, p, f);
      hide Linked;
      MoveCounts(s, s', p, f, e, n, -1);
    }
  }

  /** The reaping loop. */
  function DropFrom(s: Files, p: Slot, f: nat): (r: Files)
    requires Counts(s) && f <= MAX_OPEN_FILES
    ensures Counts(r) && |r.inodes| == |s.inodes| && |r.entries| == |s.entries|
    decreases MAX_OPEN_FILES - f
  {
    if f == MAX_OPEN_FILES then s
    else
      DropKeepsCounts(s, p, f);
      DropFrom(Drop(s, p, f), p, f + 1)
  }

  // ----- fork

  lemma ShareKeepsCounts(s: Files, parent: Slot, child: Slot, f: Fd)
    requires Counts(s) && s.fds[child][f] == NIL
    ensures s.fds[parent][f] != NIL ==> s.entries[s.fds[parent][f]].inode != NIL
    ensures Counts(ShareOne(s, parent, child, f))
  {
    hide Handles, Refs, EntryCounts, InodeCounts;
    if s.fds[parent][f] != NIL {
      var e := s.fds[parent][f];
      var n := s.entries[e].inode;
      var s' := ShareOne(s, parent, child, f);
      HeldEntry(s, parent, f);
      ShareShape(s, parent, child, f);
      hide Linked;
      MoveCounts(s, s', child, f, e, n, 1);
    }
  }

  lemma ShareShape(s: Files, parent: Slot, child: Slot, f: Fd)
    requires Shaped(s) && Linked(s) && s.fds[parent][f] != NIL
    ensures Shaped(ShareOne(s, parent, child, f)) && Linked(ShareOne(s, parent, child, f))
  {
    var s' := ShareOne(s, parent, child, f);
    forall q: Slot, g: Fd
      ensures s'.fds[q][g] == if q == child && g == f then s.fds[parent][f] else s.fds[q][g]
    {
    }
    forall e | 0 <= e < |s.entries|
      ensures s'.entries[e].inode == s.entries[e].inode
    {
    }
  }

  /** No descriptor from `f` on is in use. */
  predicate EmptyFrom(s: Files, p: Slot, f: nat)
    requires Shaped(s)
  {
    forall g: Fd :: f <= g ==> s.fds[p][g] == NIL
  }

  function ShareFrom(s: Files, parent: Slot, child: Slot, f: nat): (r: Files)
    requires Counts(s) && f <= MAX_OPEN_FILES && parent != child && EmptyFrom(s, child, f)
    ensures Counts(r) && |r.inodes| == |s.inodes| && |r.entries| == |s.entries|
    decreases MAX_OPEN_FILES - f
  {
    if f == MAX_OPEN_FILES then s
    else
      ShareKeepsCounts(s, parent, child, f);
      ShareEmpty(s, parent, child, f);
      ShareFrom(ShareOne(s, parent, child, f), parent, child, f + 1)
  }

  lemma ShareEmpty(s: Files, parent: Slot, child: Slot, f: Fd)
    requires Counts(s) && EmptyFrom(s, child, f)
    requires s.fds[parent][f] != NIL ==> s.entries[s.fds[parent][f]].inode != NIL
    requires Counts(ShareOne(s, parent, child, f))
    ensures EmptyFrom(ShareOne(s, parent, child, f), child, f + 1)
  {
    hide EntryCounts, InodeCounts, Linked;
  }
}
