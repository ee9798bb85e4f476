/** exec of process/process.c: the arguments of a program, from the caller's array through the
    kernel heap to the stack of the new image, and back out by get_proc_data. */
module ExecArguments {
  import opened CTypes

  const PAGE_BYTES: int := 0x20_0000
  const IMAGE_BASE: int := 0x40_0000

  /** A C string without its terminator. */
  type CString = s: string | forall i :: 0 <= i < |s| ==> s[i] != NUL witness ""

  /** One byte of memory: a character, or one byte of a stored pointer. */
  datatype Cell = Blank | Char(c: char) | Part(pointer: int, index: int)

  type Memory = map<int, Cell>

  function Get(m: Memory, a: int): Cell {
    if a in m then m[a] else Blank
  }

  // ----- reading back

  predicate StringAt(m: Memory, a: int, s: CString) {
    (forall j :: 0 <= j < |s| ==> Get(m, a + j) == Char(s[j])) && Get(m, a + |s|) == Char(NUL)
  }

  predicate PointerAt(m: Memory, a: int, p: int) {
    forall j :: 0 <= j < 8 ==> Get(m, a + j) == Part(p, j)
  }

  /** The bytes of strings with their terminators. */
  function Total(args: seq<CString>): nat {
    if args == [] then 0 else |args[0]| + 1 + Total(args[1..])
  }

  /** Argument `i` of a vector: a pointer to a string. */
  predicate ArgumentAt(m: Memory, ptr: int, val: int, args: seq<CString>, i: nat)
    requires i < |args|
  {
    var p := val + Total(args[..i]);
    PointerAt(m, ptr + 8 * i, p) && StringAt(m, p, args[i])
  }

  /** An argument vector at `ptr` whose strings lie one after the other from `val` on. */
  ghost predicate VectorAt(m: Memory, ptr: int, val: int, args: seq<CString>) {
    forall i :: 0 <= i < |args| ==> ArgumentAt(m, ptr, val, args, i)
  }

  // ----- writing

  function WriteChars(m: Memory, a: int, s: string): Memory
    decreases |s|
  {
    if s == [] then m else WriteChars(m[a := Char(s[0])], a + 1, s[1..])
  }

  function WritePointer(m: Memory, a: int, p: int, j: nat): Memory
    requires j <= 8
    decreases 8 - j
  {
    if j == 8 then m else WritePointer(m[a + j := Part(p, j)], a, p, j + 1)
  }

  /** One argument: its characters, the pointer to it, its terminator. */
  function WriteArgument(m: Memory, ptr: int, val: int, s: CString): Memory {
    WritePointer(WriteChars(m, val, s), ptr, val, 0)[val + |s| := Char(NUL)]
  }

  function WriteVector(m: Memory, ptr: int, val: int, args: seq<CString>): Memory
    decreases |args|
  {
    if args == [] then m
    else WriteVector(WriteArgument(m, ptr, val, args[0]), ptr + 8, val + |args[0]| + 1, args[1..])
  }

  /** The heap copy: strings with their terminators, one after the other. */
  function WriteStrings(m: Memory, val: int, args: seq<CString>): Memory
    decreases |args|
  {
    if args == [] then m
    else WriteStrings(WriteChars(m, val, args[0])[val + |args[0]| := Char(NUL)], val + |args[0]| + 1, args[1..])
  }

  // ----- sizes

  /** Counting goes on from the count that the process already has, up to a sole "&". */
  function CountFrom(args: seq<CString>, c: nat): (argc: nat)
    requires c <= |args|
    ensures c <= argc <= |args|
    ensures forall i :: c <= i < argc ==> args[i] != "&"
    ensures argc < |args| ==> args[argc] == "&"
    decreases |args| - c
  {
    if c == |args| || args[c] == "&" then c else CountFrom(args, c + 1)
  }

  function RoundUp8(n: nat): nat {
    (n + 7) / 8 * 8
  }

  function PointersAt(argc: nat): int {
    IMAGE_BASE + PAGE_BYTES - (argc + 1) * 8
  }

  /** Where the strings start, and the stack pointer of the new image. */
  function StringsAt(argc: nat, argSize: nat, nameLen: nat): int {
    PointersAt(argc) - RoundUp8(argSize + nameLen + 1)
  }

  /** The name that argument 0 shows: its last four characters are replaced by ".BIN". */
  function ShownName(name: CString): CString
    requires |name| >= 4
  {
    name[..|name| - 4] + ".BIN"
  }

  // ----- proofs

  lemma {:induction false} CharsAt(m: Memory, a: int, s: string, b: int)
    ensures Get(WriteChars(m, a, s), b) == if a <= b < a + |s| then Char(s[b - a]) else Get(m, b)
    decreases |s|
  {
    if s != [] {
      CharsAt(m[a := Char(s[0])], a + 1, s[1..], b);
    }
  }

  lemma {:induction false} PointerBytes(m: Memory, a: int, p: int, j: nat, b: int)
    requires j <= 8
    ensures Get(WritePointer(m, a, p, j), b) == if a + j <= b < a + 8 then Part(p, b - a) else Get(m, b)
    decreases 8 - j
  {
    if j < 8 {
      PointerBytes(m[a + j := Part(p, j)], a, p, j + 1, b);
    }
  }

  lemma ArgumentCells(m: Memory, ptr: int, val: int, s: CString, b: int)
    ensures Get(WriteArgument(m, ptr, val, s), b) ==
      if b == val + |s| then Char(NUL) else if ptr <= b < ptr + 8 then Part(val, b - ptr)
      else if val <= b < val + |s| then Char(s[b - val]) else Get(m, b)
  {
    hide WriteChars, WritePointer;
    CharsAt(m, val, s, b);
    PointerBytes(WriteChars(m, val, s), ptr, val, 0, b);
  }

  /** Nothing outside the pointers and the strings is written. */
  lemma {:induction false} VectorFrame(m: Memory, ptr: int, val: int, args: seq<CString>, b: int)
    requires !(ptr <= b < ptr + 8 * |args|) && !(val <= b < val + Total(args))
    ensures Get(WriteVector(m, ptr, val, args), b) == Get(m, b)
    decreases |args|
  {
    hide WriteArgument, Get;
    if args != [] {
      ArgumentCells(m, ptr, val, args[0], b);
      VectorFrame(WriteArgument(m, ptr, val, args[0]), ptr + 8, val + |args[0]| + 1, args[1..], b);
    }
  }

  lemma FirstArgument(m: Memory, ptr: int, val: int, args: seq<CString>)
    requires args != [] && (val + Total(args) <= ptr || ptr + 8 * |args| <= val)
    ensures var m' := WriteVector(m, ptr, val, args); PointerAt(m', ptr, val) && StringAt(m', val, args[0])
  {
    hide WriteArgument, Get;
    var m1 := WriteArgument(m, ptr, val, args[0]);
    var m' := WriteVector(m, ptr, val, args);
    forall b | ptr <= b < ptr + 8 || val <= b <= val + |args[0]|
      ensures Get(m', b) == Get(m1, b)
    {
      VectorFrame(m1, ptr + 8, val + |args[0]| + 1, args[1..], b);
    }
    forall b
      ensures ptr <= b < ptr + 8 ==> Get(m1, b) == Part(val, b - ptr)
      ensures val <= b < val + |args[0]| ==> Get(m1, b) == Char(args[0][b - val])
      ensures b == val + |args[0]| ==> Get(m1, b) == Char(NUL)
    {
      ArgumentCells(m, ptr, val, args[0], b);
    }
  }

  /** When strings and pointers do not overlap, the vector reads back as it was written. */
  lemma {:induction false} VectorRoundTrip(m: Memory, ptr: int, val: int, args: seq<CString>)
    requires val + Total(args) <= ptr || ptr + 8 * |args| <= val
    ensures VectorAt(WriteVector(m, ptr, val, args), ptr, val, args)
    decreases |args|
  {
    hide WriteArgument, PointerAt, StringAt, Total;
    if args != [] {
      assert Total(args) == |args[0]| + 1 + Total(args[1..]) by {
        TotalHead(args);
      }
      FirstArgument(m, ptr, val, args);
      VectorRoundTrip(WriteArgument(m, ptr, val, args[0]), ptr + 8, val + |args[0]| + 1, args[1..]);
      var m' := WriteVector(m, ptr, val, args);
      forall i | 0 <= i < |args|
        ensures ArgumentAt(m', ptr, val, args, i)
      {
        NextArgument(m', ptr, val, args, i);
      }
    }
  }

  lemma TotalHead(args: seq<CString>)
    requires args != []
    ensures Total(args) == |args[0]| + 1 + Total(args[1..])
  {
  }

  lemma NextArgument(m: Memory, ptr: int, val: int, args: seq<CString>, i: nat)
    requires i < |args| && PointerAt(m, ptr, val) && StringAt(m, val, args[0])
    requires i > 0 ==> ArgumentAt(m, ptr + 8, val + |args[0]| + 1, args[1..], i - 1)
    ensures ArgumentAt(m, ptr, val, args, i)
  {
    hide PointerAt, StringAt;
    if i > 0 {
      assert args[..i][1..] == args[1..][..i-1];
    }
  }

  lemma {:induction false} TotalSplit(s: seq<CString>, t: seq<CString>)
    ensures Total(s + t) == Total(s) + Total(t)
  {
    if s == [] {
      assert s + t == t;
    } else {
      assert (s + t)[1..] == s[1..] + t;
      TotalSplit(s[1..], t);
    }
  }

  /** The new image of a program: where argument `i` of its vector is found, from the registers
      x1 and x2 it is given, if the process has run no other program before (its count is 0). */
  lemma ExecRoundTrip(m: Memory, name: CString, args: seq<CString>)
    requires |name| >= 4
    ensures var argc := CountFrom(args, 0);
      var given := args[..argc];
      var shown := [ShownName(name)] + given;
      var ptr, sp := PointersAt(argc), StringsAt(argc, Total(given), |name|);
      && VectorAt(WriteVector(m, ptr, sp, shown), ptr, sp, shown)
      && sp + Total(shown) <= ptr && ptr + 8 * |shown| == IMAGE_BASE + PAGE_BYTES
      && sp % 8 == 0
  {
    hide VectorAt, WriteVector, CountFrom;
    var argc := CountFrom(args, 0);
    var given := args[..argc];
    var shown := [ShownName(name)] + given;
    TotalSplit([ShownName(name)], given);
    VectorRoundTrip(m, PointersAt(argc), StringsAt(argc, Total(given), |name|), shown);
  }

  /** Argument 0 is the program's name if and only if the name ends in ".BIN". */
  lemma ShownNameIff(name: CString)
    requires |name| >= 4
    ensures ShownName(name) == name <==> name[|name| - 4..] == ".BIN"
  {
    assert name == name[..|name| - 4] + name[|name| - 4..];
    assert ShownName(name)[|name| - 4..] == ".BIN";
  }

  /** A process that has run a program with `c` arguments before counts on from there, and the
      space for the skipped arguments is missing: the strings fit below the pointers if and
      only if the skipped ones fit into the rounding. */
  lemma StringsFitIff(name: CString, args: seq<CString>, c: nat)
    requires |name| >= 4 && c <= |args|
    ensures var argc := CountFrom(args, c);
      var counted := Total(args[c..argc]);
      var shown := [ShownName(name)] + args[..argc];
      var size := counted + |name| + 1;
      StringsAt(argc, counted, |name|) + Total(shown) <= PointersAt(argc) <==> Total(args[..c]) <= RoundUp8(size) - size
  {
    hide CountFrom;
    var argc := CountFrom(args, c);
    TotalSplit([ShownName(name)], args[..argc]);
    TotalSplit(args[..c], args[c..argc]);
    assert args[..argc] == args[..c] + args[c..argc];
  }

  /** The letters of an argument that reach the vector destroy the pointer to argument 0. */
  lemma Overrun(m: Memory, ptr: int, val: int, name: CString, arg: CString)
    requires val + |name| + 1 <= ptr < val + |name| + 1 + |arg|
    ensures !PointerAt(WriteVector(m, ptr, val, [name] + [arg]), ptr, val)
  {
    hide WriteArgument, Get;
    var shown := [name] + [arg];
    assert shown[1..] == [arg] && [arg][1..] == [];
    var m1 := WriteArgument(m, ptr, val, name);
    var m2 := WriteArgument(m1, ptr + 8, val + |name| + 1, arg);
    assert WriteVector(m1, ptr + 8, val + |name| + 1, [arg]) == m2;
    assert WriteVector(m, ptr, val, shown) == m2;
    ArgumentCells(m1, ptr + 8, val + |name| + 1, arg, ptr);
    assert Get(m2, ptr + 0) == Char(arg[ptr - (val + |name| + 1)]);
    assert PointerAt(m2, ptr, val) ==> Get(m2, ptr + 0) == Part(val, 0);
  }

  /** A process that has been given one argument before is given one of eight letters: it is not
      counted, its letters run into the vector, and argument 0 is lost. */
  lemma SkippedArgumentOverruns(m: Memory)
    ensures var name, args := "A.BIN", ["ABCDEFGH"];
      var argc := CountFrom(args, 1);
      var ptr, val := PointersAt(argc), StringsAt(argc, Total(args[1..argc]), |name|);
      && argc == 1 && val + Total([ShownName(name)] + args[..argc]) > ptr
      && !PointerAt(WriteVector(m, ptr, val, [ShownName(name)] + args[..argc]), ptr, val)
  {
    hide WriteVector, PointerAt;
    var name: CString, arg: CString := "A.BIN", "ABCDEFGH";
    assert [arg][1..1] == [] && [arg][..1] == [arg];
    assert ShownName(name) == name;
    assert Total([name]) == 6 && Total([arg]) == 9;
    TotalSplit([name], [arg]);
    Overrun(m, PointersAt(1), StringsAt(1, 0, 5), name, arg);
  }

  // ----- the heap copy

  predicate StringOf(m: Memory, val: int, args: seq<CString>, i: nat)
    requires i < |args|
  {
    StringAt(m, val + Total(args[..i]), args[i])
  }

  /** Strings one after the other from `val` on. */
  ghost predicate StringsOf(m: Memory, val: int, args: seq<CString>) {
    forall i :: 0 <= i < |args| ==> StringOf(m, val, args, i)
  }

  lemma StringCells(m: Memory, val: int, s: CString, b: int)
    ensures Get(WriteChars(m, val, s)[val + |s| := Char(NUL)], b) ==
      if b == val + |s| then Char(NUL) else if val <= b < val + |s| then Char(s[b - val]) else Get(m, b)
  {
    hide WriteChars;
    CharsAt(m, val, s, b);
  }

  lemma {:induction false} StringsFrame(m: Memory, val: int, args: seq<CString>, b: int)
    requires !(val <= b < val + Total(args))
    ensures Get(WriteStrings(m, val, args), b) == Get(m, b)
    decreases |args|
  {
    hide WriteChars, Get;
    if args != [] {
      StringCells(m, val, args[0], b);
      StringsFrame(WriteChars(m, val, args[0])[val + |args[0]| := Char(NUL)], val + |args[0]| + 1, args[1..], b);
    }
  }

  lemma FirstString(m: Memory, val: int, args: seq<CString>)
    requires args != []
    ensures StringAt(WriteStrings(m, val, args), val, args[0])
  {
    hide WriteChars, Get;
    var m1 := WriteChars(m, val, args[0])[val + |args[0]| := Char(NUL)];
    forall b | val <= b <= val + |args[0]|
      ensures Get(WriteStrings(m, val, args), b) == if b == val + |args[0]| then Char(NUL) else Char(args[0][b - val])
    {
      StringsFrame(m1, val + |args[0]| + 1, args[1..], b);
      StringCells(m, val, args[0], b);
    }
  }

  /** The heap holds the arguments that were copied there. */
  lemma {:induction false} StringsRoundTrip(m: Memory, val: int, args: seq<CString>)
    ensures StringsOf(WriteStrings(m, val, args), val, args)
    decreases |args|
  {
    hide WriteChars, StringAt, Total;
    if args != [] {
      FirstString(m, val, args);
      StringsRoundTrip(WriteChars(m, val, args[0])[val + |args[0]| := Char(NUL)], val + |args[0]| + 1, args[1..]);
      forall i | 0 <= i < |args|
        ensures StringOf(WriteStrings(m, val, args), val, args, i)
      {
        NextString(WriteStrings(m, val, args), val, args, i);
      }
    }
  }

  lemma NextString(m: Memory, val: int, args: seq<CString>, i: nat)
    requires i < |args| && StringAt(m, val, args[0])
    requires i > 0 ==> StringOf(m, val + |args[0]| + 1, args[1..], i - 1)
    ensures StringOf(m, val, args, i)
  {
    hide StringAt;
    if i > 0 {
      assert args[..i][1..] == args[1..][..i-1];
    }
  }

  lemma TotalSnoc(args: seq<CString>, i: nat)
    requires i < |args|
    ensures Total(args[..i + 1]) == Total(args[..i]) + |args[i]| + 1
  {
    assert args[..i + 1] == args[..i] + [args[i]];
    TotalSplit(args[..i], [args[i]]);
  }

  lemma {:induction false} CharsSnoc(m: Memory, a: int, s: string, j: nat)
    requires j < |s|
    ensures WriteChars(m, a, s[..j + 1]) == WriteChars(m, a, s[..j])[a + j := Char(s[j])]
    decreases j
  {
    if j == 0 {
      assert s[..1][1..] == [];
    } else {
      assert s[..j + 1][1..] == s[1..][..j] && s[..j][1..] == s[1..][..j - 1];
      CharsSnoc(m[a := Char(s[0])], a + 1, s[1..], j - 1);
    }
  }

  lemma {:induction false} CharsJoin(m: Memory, a: int, s: string, t: string)
    ensures WriteChars(WriteChars(m, a, s), a + |s|, t) == WriteChars(m, a, s + t)
    decreases |s|
  {
    if s == [] {
      assert s + t == t;
    } else {
      assert (s + t)[1..] == s[1..] + t;
      CharsJoin(m[a := Char(s[0])], a + 1, s[1..], t);
    }
  }

  lemma {:induction false} StringsSnoc(m: Memory, val: int, args: seq<CString>, i: nat)
    requires i < |args|
    ensures var a := val + Total(args[..i]);
      WriteStrings(m, val, args[..i + 1]) ==
        WriteChars(WriteStrings(m, val, args[..i]), a, args[i])[a + |args[i]| := Char(NUL)]
    decreases i
  {
    hide WriteChars;
    if i == 0 {
      assert args[..1][1..] == [];
    } else {
      assert args[..i + 1][1..] == args[1..][..i] && args[..i][1..] == args[1..][..i - 1];
      StringsSnoc(WriteChars(m, val, args[0])[val + |args[0]| := Char(NUL)], val + |args[0]| + 1, args[1..], i - 1);
    }
  }

  lemma {:induction false} VectorSnoc(m: Memory, ptr: int, val: int, args: seq<CString>, i: nat)
    requires i < |args|
    ensures WriteVector(m, ptr, val, args[..i + 1]) ==
      WriteArgument(WriteVector(m, ptr, val, args[..i]), ptr + 8 * i, val + Total(args[..i]), args[i])
    decreases i
  {
    hide WriteArgument;
    if i == 0 {
      assert args[..1][1..] == [];
    } else {
      assert args[..i + 1][1..] == args[1..][..i] && args[..i][1..] == args[1..][..i - 1];
      VectorSnoc(WriteArgument(m, ptr, val, args[0]), ptr + 8, val + |args[0]| + 1, args[1..], i - 1);
    }
  }

  /** Writing a cell before the pointer as well as after it makes no difference. */
  lemma {:induction false} WrittenTwice(m: Memory, ptr: int, p: int, j: nat, a: int, c: Cell)
    requires j <= 8
    ensures WritePointer(m[a := c], ptr, p, j)[a := c] == WritePointer(m, ptr, p, j)[a := c]
    decreases 8 - j
  {
    if j < 8 {
      if ptr + j == a {
        assert m[a := c][ptr + j := Part(p, j)] == m[ptr + j := Part(p, j)];
      } else {
        assert m[a := c][ptr + j := Part(p, j)] == m[ptr + j := Part(p, j)][a := c];
        WrittenTwice(m[ptr + j := Part(p, j)], ptr, p, j + 1, a, c);
      }
    }
  }

  // ----- exec and get_proc_data

  class Image {
    /** Kernel heap and user page of the process; its argument count and the new frame. */
    var heap: Memory
    var user: Memory
    var argc: nat
    var sp0: int
    var x1: int
    var x2: int

    method CopyToHeap(a: int, s: CString)
      modifies this`heap
      ensures heap == WriteChars(old(heap), a, s)
    {
      var j := 0;
      while j < |s|
        invariant 0 <= j <= |s| && heap == WriteChars(old(heap), a, s[..j])
      {
        CharsSnoc(old(heap), a, s, j);
        heap := heap[a + j := Char(s[j])];
        j := j + 1;
      }
      assert s[..|s|] == s;
    }

    method CopyToUser(a: int, s: string)
      modifies this`user
      ensures user == WriteChars(old(user), a, s)
    {
      var j := 0;
      while j < |s|
        invariant 0 <= j <= |s| && user == WriteChars(old(user), a, s[..j])
      {
        CharsSnoc(old(user), a, s, j);
        user := user[a + j := Char(s[j])];
        j := j + 1;
      }
      assert s[..|s|] == s;
    }

    /** A string from the kernel heap to the user stack. */
    method CopyOut(from: int, to: int, n: nat, ghost s: CString)
      requires StringAt(heap, from, s) && n == |s|
      modifies this`user
      ensures user == WriteChars(old(user), to, s)
    {
      var j := 0;
      while j < n
        invariant 0 <= j <= n && heap == old(heap) && user == WriteChars(old(user), to, s[..j])
      {
        CharsSnoc(old(user), to, s, j);
        user := user[to + j := Get(heap, from + j)];
        j := j + 1;
      }
      assert s[..|s|] == s;
    }

    method StorePointer(a: int, p: int)
      modifies this`user
      ensures user == WritePointer(old(user), a, p, 0)
    {
      var j := 0;
      while j < 8
        invariant 0 <= j <= 8 && WritePointer(user, a, p, j) == WritePointer(old(user), a, p, 0)
      {
        user := user[a + j := Part(p, j)];
        j := j + 1;
      }
    }

    /** The arguments up to "&", counted on from the present count, and their size. */
    method CountArguments(args: seq<CString>) returns (size: nat, background: bool)
      requires argc <= |args|
      modifies this`argc
      ensures argc == CountFrom(args, old(argc)) && size == Total(args[old(argc)..argc])
      ensures background <==> argc < |args|
    {
      size, background := 0, false;
      ghost var c := argc;
      while argc < |args|
        invariant c <= argc <= |args| && size == Total(args[c..argc]) && !background
        invariant CountFrom(args, argc) == CountFrom(args, c)
      {
        if args[argc] == "&" {
          background := true;
          break;
        }
        assert args[c..][..argc - c] == args[c..argc] && args[c..][..argc - c + 1] == args[c..argc + 1];
        TotalSnoc(args[c..], argc - c);
        size := size + |args[argc]| + 1;
        argc := argc + 1;
      }
    }

    /** The arguments into the kernel heap. */
    method PackHeap(args: seq<CString>, base: int)
      requires argc <= |args|
      modifies this`heap
      ensures heap == WriteStrings(old(heap), base, args[..argc])
    {
      hide WriteStrings;
      var i, a := 0, base;
      assert WriteStrings(heap, base, args[..0]) == heap by {
        NoStrings(heap, base, args);
      }
      while i < argc
        invariant 0 <= i <= argc && a == base + Total(args[..i])
        invariant heap == WriteStrings(old(heap), base, args[..i])
      {
        StringsSnoc(old(heap), base, args, i);
        TotalSnoc(args, i);
        CopyToHeap(a, args[i]);
        heap := heap[a + |args[i]| := Char(NUL)];
        a := a + |args[i]| + 1;
        i := i + 1;
      }
    }

    /** The vector and its strings on the new stack: the name, then the arguments from the heap. */
    method BuildStack(name: CString, lengths: seq<nat>, size: nat, base: int, ghost given: seq<CString>)
      requires |name| >= 4 && |lengths| == argc == |given| && StringsOf(heap, base, given)
      requires forall i :: 0 <= i < argc ==> lengths[i] == |given[i]|
      modifies this`user, this`sp0, this`x1, this`x2
      ensures x2 == argc + 1 && x1 == PointersAt(argc) && sp0 == StringsAt(argc, size, |name|)
      ensures user == WriteVector(old(user), x1, sp0, [ShownName(name)] + given)
    {
      hide WriteVector, StringAt, WriteArgument;
      x2 := argc + 1;
      sp0 := IMAGE_BASE + PAGE_BYTES;
      sp0 := sp0 - (argc + 1) * 8;
      var ptr := sp0;
      sp0 := sp0 - RoundUp8(size + |name| + 1);
      var val, from := sp0, base;
      ghost var m, shown := user, [ShownName(name)] + given;
      WriteName(name, ptr, val);
      FirstWritten(m, ptr, val, shown);
      ptr, val := ptr + 8, val + |name| + 1;
      var i := 0;
      while i < argc
        invariant 0 <= i <= argc && heap == old(heap) && x2 == argc + 1 && sp0 == StringsAt(argc, size, |name|)
        invariant ptr == PointersAt(argc) + 8 * (i + 1) && val == sp0 + Total(shown[..i + 1])
          && from == base + Total(given[..i])
        invariant user == WriteVector(m, PointersAt(argc), sp0, shown[..i + 1])
      {
        assert StringOf(heap, base, given, i);
        StoreArgument(from, ptr, val, lengths[i], given[i]);
        VectorSnoc(m, PointersAt(argc), sp0, shown, i + 1);
        TotalSnoc(shown, i + 1);
        TotalSnoc(given, i);
        ptr, val, from := ptr + 8, val + lengths[i] + 1, from + lengths[i] + 1;
        i := i + 1;
      }
      assert shown[..argc + 1] == shown;
      x1 := ptr - (argc + 1) * 8;
    }

    /** One argument from the heap, with its pointer and its terminator. */
    method StoreArgument(from: int, ptr: int, val: int, n: nat, ghost s: CString)
      requires StringAt(heap, from, s) && n == |s|
      modifies this`user
      ensures user == WriteArgument(old(user), ptr, val, s)
    {
      CopyOut(from, val, n, s);
      StorePointer(ptr, val);
      user := user[val + n := Char(NUL)];
    }

    /** Argument 0: the process name, ".BIN" with its terminator, the pointer, the terminator. */
    method WriteName(name: CString, ptr: int, val: int)
      requires |name| >= 4
      modifies this`user
      ensures user == WriteArgument(old(user), ptr, val, ShownName(name))
    {
      ghost var m := user;
      CopyToUser(val, name[..|name| - 4]);
      CopyToUser(val + |name| - 4, ".BIN");
      CharsJoin(m, val, name[..|name| - 4], ".BIN");
      WrittenTwice(user, ptr, val, 0, val + |name|, Char(NUL));
      user := user[val + |name| := Char(NUL)];
      StorePointer(ptr, val);
      user := user[val + |name| := Char(NUL)];
    }

    /** exec's handling of arguments. `image` is the user page after the program has been
        read into it, whatever was there before. */
    method Exec(name: CString, args: seq<CString>, base: int, image: Memory) returns (background: bool)
      requires |name| >= 4 && argc <= |args|
      modifies this
      ensures argc == CountFrom(args, old(argc)) && (background <==> argc < |args|)
      ensures x2 == argc + 1 && x1 == PointersAt(argc) && sp0 == StringsAt(argc, Total(args[old(argc)..argc]), |name|)
      ensures heap == WriteStrings(old(heap), base, args[..argc])
      ensures user == WriteVector(image, x1, sp0, [ShownName(name)] + args[..argc])
    {
      hide WriteStrings, WriteVector, CountFrom, StringsOf;
      var size;
      size, background := CountArguments(args);
      PackHeap(args, base);
      StringsRoundTrip(old(heap), base, args[..argc]);
      var lengths := seq(argc, i requires 0 <= i < |args| => |args[i]|);
      user := image;
      BuildStack(name, lengths, size, base, args[..argc]);
    }

    /** The part of get_proc_data that copies the arguments out of the kernel heap. */
    method ProcData(base: int, out: int, ghost given: seq<CString>) returns (size: nat)
      requires |given| == argc && StringsOf(heap, base, given)
      modifies this`user
      ensures size == Total(given) && user == WriteStrings(old(user), out, given)
    {
      hide WriteStrings, StringAt;
      size := 0;
      NoStrings(user, out, given);
      var j := 0;
      while j < argc
        invariant 0 <= j <= argc && heap == old(heap) && size == Total(given[..j])
        invariant user == WriteStrings(old(user), out, given[..j])
      {
        assert StringOf(heap, base, given, j);
        var n := Length(base + size, given[j]);
        StringsSnoc(old(user), out, given, j);
        TotalSnoc(given, j);
        CopyOut(base + size, out + size, n, given[j]);
        user := user[out + size + n := Char(NUL)];
        size := size + n + 1;
        j := j + 1;
      }
      assert given[..argc] == given;
    }

    /** strlen on the heap. */
    method Length(a: int, ghost s: CString) returns (n: nat)
      requires StringAt(heap, a, s)
      ensures n == |s|
    {
      n := 0;
      while Get(heap, a + n) != Char(NUL)
        invariant 0 <= n <= |s| && (n < |s| ==> Get(heap, a + n) == Char(s[n]) && s[n] != NUL)
        decreases |s| - n
      {
        n := n + 1;
      }
    }
  }

  lemma NoStrings(m: Memory, val: int, args: seq<CString>)
    ensures WriteStrings(m, val, args[..0]) == m
  {
  }

  lemma FirstWritten(m: Memory, ptr: int, val: int, args: seq<CString>)
    requires args != []
    ensures WriteVector(m, ptr, val, args[..1]) == WriteArgument(m, ptr, val, args[0])
      && Total(args[..1]) == |args[0]| + 1
  {
    assert args[..1][1..] == [];
  }
}
