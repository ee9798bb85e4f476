/** A run of open, fork, close and reaping that leaves a descriptor without an inode. */
module FileWitness {
  import opened ProcessModel
  import opened OpenFiles
  import opened FileCounts
  import opened FileRuns

  /** Tables with room for two files, before any file is opened. */
  predicate Room(s: Files) {
    NoFiles(s) && |s.inodes| >= 2 && |s.entries| >= 2
  }

  lemma {:induction false} ShareNothing(s: Files, parent: Slot, child: Slot, f: nat)
    requires Counts(s) && f <= MAX_OPEN_FILES && parent != child && EmptyFrom(s, child, f) && EmptyFrom(s, parent, f)
    ensures ShareFrom(s, parent, child, f) == s
    decreases MAX_OPEN_FILES - f
  {
    hide EntryCounts, InodeCounts, Linked;
    if f < MAX_OPEN_FILES {
      ShareNothing(s, parent, child, f + 1);
    }
  }

  /** The parent opens a file. */
  lemma OpenFirst(s: Files, file: DirEntry)
    requires Room(s)
    ensures Shaped(s) && OpenFd(s, 1, 0) == 0
    ensures var s' := OpenFile(s, 1, 0, file);
      && s' == Files(s.inodes[0 := Inode(file.size, file.cluster, 1)], s.entries[0 := Entry(0, 0, 1)],
                     s.fds[1 := s.fds[1][0 := 0]])
  {
    assert s.fds[1][0] == NIL && s.entries[0].inode == NIL;
    assert s.inodes[0].refs == 0;
  }

  /** The child opens the program file and closes it again. */
  lemma ProgramFile(s: Files, file: DirEntry, program: DirEntry)
    requires Room(s)
    ensures Shaped(s) && Shaped(OpenFile(s, 1, 0, file)) && OpenFd(OpenFile(s, 1, 0, file), 2, 1) == 0
    ensures var s1 := OpenFile(s, 1, 0, file);
      && Shaped(OpenFile(s1, 2, 1, program))
      && var s2 := CloseFile(OpenFile(s1, 2, 1, program), 2, 0);
      && s2.fds == s1.fds && s2.entries == s1.entries[1 := Entry(1, 0, 0)]
      && s2.inodes == s1.inodes[1 := Inode(program.size, program.cluster, 0)]
  {
    OpenFirst(s, file);
    var s1 := OpenFile(s, 1, 0, file);
    assert forall q: Slot :: q != 1 ==> s1.fds[q] == s.fds[q];
    assert s1.fds[2][0] == NIL && s1.entries[0].inode == 0 && s1.entries[1].inode == NIL && s1.inodes[1].refs == 0;
    assert FindEntry(s1.entries, 1) == 1 && FindEntry(s1.entries, 0) == 1;
    var s2 := OpenFile(s1, 2, 1, program);
    assert s2.fds == s1.fds[2 := s1.fds[2][0 := 1]];
    assert s2.fds[2][0 := NIL] == s1.fds[2];
  }

  /** After open and fork, parent and child share the first entry. */
  lemma ShareFirst(s: Files, file: DirEntry, program: DirEntry)
    requires Room(s)
    ensures Counts(s)
    ensures var r := FileRun(s, [Open(1, 0, file), Fork(1, 2, true, 1, program)]);
      && r.fds[1][0] == 0 && r.fds[2][0] == 0
      && r.entries[0].inode == 0 && r.entries[0].refs == 2 && r.inodes[0].refs == 2
  {
    hide Handles, Refs, EntryCounts, InodeCounts, Linked;
    NoFilesCounts(s);
    OpenFirst(s, file);
    ProgramFile(s, file, program);
    var s1 := OpenFile(s, 1, 0, file);
    OpenKeepsCounts(s, 1, 0, file);
    ForkShares(s, s1, file, program);
    var a, b := Open(1, 0, file), Fork(1, 2, true, 1, program);
    assert [a, b][1..] == [b] && [b][1..] == [];
    assert FileRun(s1, [b]) == FileRun(FileStep(s1, b), []);
  }

  lemma ForkShares(s: Files, s1: Files, file: DirEntry, program: DirEntry)
    requires Room(s) && Shaped(s) && s1 == OpenFile(s, 1, 0, file) && Counts(s1)
    ensures EmptyFrom(s1, 2, 0)
    ensures var r := ForkFiles(s1, 1, 2, true, 1, program);
      && r.fds[1][0] == 0 && r.fds[2][0] == 0
      && r.entries[0].inode == 0 && r.entries[0].refs == 2 && r.inodes[0].refs == 2
  {
    hide Handles, Refs, EntryCounts, InodeCounts;
    OpenFirst(s, file);
    ProgramFile(s, file, program);
    assert EmptyFrom(s1, 2, 0) && EmptyFrom(s1, 1, 1);
    OpenKeepsCounts(s1, 2, 1, program);
    OpenedAlone(s1, 2, 1, program);
    CloseKeepsCountsIff(OpenFile(s1, 2, 1, program), 2, 0);
    var s2 := CloseFile(OpenFile(s1, 2, 1, program), 2, 0);
    ShareKeepsCounts(s2, 1, 2, 0);
    ShareEmpty(s2, 1, 2, 0);
    var r := ShareOne(s2, 1, 2, 0);
    assert EmptyFrom(r, 1, 1);
    ShareNothing(r, 1, 2, 1);
  }

  /** From boot: open, fork, a close by the parent and the reaping of the child leave the parent
      with a descriptor whose entry has no inode. */
  lemma DanglingDescriptor(s: Files, file: DirEntry, program: DirEntry)
    requires Room(s)
    ensures Counts(s)
    ensures var s1 := CloseFile(FileRun(s, [Open(1, 0, file), Fork(1, 2, true, 1, program)]), 1, 0);
      && Shaped(s1) && !Counts(s1) && s1.fds[2][0] != NIL && s1.entries[s1.fds[2][0]].inode != NIL
      && var s2 := Drop(s1, 2, 0);
      s2.fds[1][0] != NIL && s2.entries[s2.fds[1][0]].inode == NIL
  {
    hide EntryCounts, InodeCounts, FileRun;
    ShareFirst(s, file, program);
    CloseKeepsCountsIff(FileRun(s, [Open(1, 0, file), Fork(1, 2, true, 1, program)]), 1, 0);
    SharedCloseDangles(FileRun(s, [Open(1, 0, file), Fork(1, 2, true, 1, program)]), 1, 0, 2, 0);
  }
}
