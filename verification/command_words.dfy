/** get_cmd_info of user/shell/shell.c: the command and its arguments in an edited line. */
module CommandWords {
  import opened CTypes
  import opened LineEditor

  const SPACE: char := ' '
  const NONE: int := -1

  // ----- words

  /** Scanning on from `i`, with a word open since `start` unless that is NONE: the words from
      there on, as pairs of start and end. */
  function Scan(s: string, i: nat, start: int): seq<(int, int)>
    requires i <= |s|
    decreases |s| - i
  {
    if i == |s| then (if start != NONE then [(start, i)] else [])
    else if s[i] == SPACE then (if start != NONE then [(start, i)] else []) + Scan(s, i + 1, NONE)
    else Scan(s, i + 1, if start != NONE then start else i)
  }

  /** The words from `i` on; none past the end. */
  function Words(s: string, i: nat): seq<(int, int)> {
    if i <= |s| then Scan(s, i, NONE) else []
  }

  /** A stretch without spaces, not to be extended on either side, from `from` on. */
  predicate MaximalRun(s: string, from: nat, w: (int, int)) {
    && from <= w.0 < w.1 <= |s|
    && (forall k :: w.0 <= k < w.1 ==> s[k] != SPACE)
    && (w.0 == from || s[w.0 - 1] == SPACE)
    && (w.1 == |s| || s[w.1] == SPACE)
  }

  /** A scan in state (i, start) is inside a line that began at `from`. */
  predicate ScanState(s: string, from: nat, i: nat, start: int) {
    && from <= i <= |s|
    && if start == NONE then i == from || s[i - 1] == SPACE
       else (from <= start < i && (forall k :: start <= k < i ==> s[k] != SPACE) &&
             (start == from || s[start - 1] == SPACE))
  }

  /** The scan finds every maximal run that ends from here on, and nothing else. */
  lemma {:induction false} ScanFindsRuns(s: string, from: nat, i: nat, start: int)
    requires ScanState(s, from, i, start)
    ensures forall k :: 0 <= k < |Scan(s, i, start)| ==> MaximalRun(s, from, Scan(s, i, start)[k])
    ensures forall w :: MaximalRun(s, from, w) && (w.0 >= i || w.0 == start) ==> w in Scan(s, i, start)
    decreases |s| - i
  {
    if i == |s| {
      forall w | MaximalRun(s, from, w) && (w.0 >= i || w.0 == start)
        ensures w in Scan(s, i, start)
      {
        assert w == (start, i);
      }
    } else if s[i] == SPACE {
      ScanFindsRuns(s, from, i + 1, NONE);
      forall w | MaximalRun(s, from, w) && (w.0 >= i || w.0 == start)
        ensures w in Scan(s, i, start)
      {
        if w.0 == start {
          RunEnds(s, from, w, start, i);
        } else {
          assert w.0 != i;
        }
      }
    } else {
      var start' := if start != NONE then start else i;
      ScanFindsRuns(s, from, i + 1, start');
      forall w | MaximalRun(s, from, w) && (w.0 >= i || w.0 == start)
        ensures w in Scan(s, i, start)
      {
        if start != NONE {
          assert w.0 != i;
        }
      }
    }
  }

  lemma {:induction false} ScanInOrder(s: string, i: nat, start: int)
    requires i <= |s| && (start == NONE || 0 <= start < i)
    ensures forall k :: 0 <= k < |Scan(s, i, start)| ==> Scan(s, i, start)[k].0 >= (if start != NONE then start else i)
    ensures forall j, k :: 0 <= j < k < |Scan(s, i, start)| ==> Scan(s, i, start)[j].1 <= Scan(s, i, start)[k].0
    decreases |s| - i
  {
    if i < |s| {
      ScanInOrder(s, i + 1, if s[i] == SPACE then NONE else if start != NONE then start else i);
    }
  }

  lemma RunEnds(s: string, from: nat, w: (int, int), start: int, i: nat)
    requires MaximalRun(s, from, w) && w.0 == start && i < |s| && s[i] == SPACE
    requires from <= start < i && forall k :: start <= k < i ==> s[k] != SPACE
    ensures w == (start, i)
  {
  }

  /** The words of a line are precisely its maximal runs, from left to right. */
  lemma WordsAreMaximalRuns(s: string, from: nat)
    requires from <= |s|
    ensures forall w :: w in Words(s, from) <==> MaximalRun(s, from, w)
    ensures forall j, k :: 0 <= j < k < |Words(s, from)| ==> Words(s, from)[j].1 <= Words(s, from)[k].0
  {
    ScanFindsRuns(s, from, from, NONE);
    ScanInOrder(s, from, NONE);
  }

  // ----- the command

  /** The first place from `i` on that is not a space. */
  function SkipSpaces(s: string, i: nat): (r: nat)
    requires i <= |s|
    ensures i <= r <= |s| && (forall k :: i <= k < r ==> s[k] == SPACE) && (r < |s| ==> s[r] != SPACE)
    decreases |s| - i
  {
    if i == |s| || s[i] != SPACE then i else SkipSpaces(s, i + 1)
  }

  /** The first place from `i` on that is a space, or the end. */
  function SkipWord(s: string, i: nat): (r: nat)
    requires i <= |s|
    ensures i <= r <= |s| && (forall k :: i <= k < r ==> s[k] != SPACE) && (r < |s| ==> s[r] == SPACE)
    decreases |s| - i
  {
    if i == |s| || s[i] == SPACE then i else SkipWord(s, i + 1)
  }

  function CommandStart(s: string): nat {
    SkipSpaces(s, 0)
  }

  function CommandEnd(s: string): nat {
    SkipWord(s, CommandStart(s))
  }

  /** The text of a buffer up to the first NUL, from `a` on. */
  predicate TextAt(b: seq<char>, a: nat, s: string) {
    a + |s| < |b| && (forall i :: 0 <= i < |s| ==> b[a + i] == s[i]) && b[a + |s|] == NUL
  }

  /** Where the extension starts: after the last dot of the command. */
  predicate IsExtension(s: string, ext: int) {
    if ext == NONE then forall k :: CommandStart(s) <= k < CommandEnd(s) ==> s[k] != '.'
    else (CommandStart(s) < ext <= CommandEnd(s) && s[ext - 1] == '.' &&
          forall k :: ext <= k < CommandEnd(s) ==> s[k] != '.')
  }

  /** Argument `k` is word `k` of the line: its address, its text, its terminator. */
  predicate ArgumentIs(s: string, b: seq<char>, args: seq<int>, words: seq<(int, int)>, k: nat)
    requires k < |args| && k < |words|
  {
    var w := words[k];
    0 <= w.0 <= w.1 <= |s| && args[k] == w.0 && TextAt(b, w.0, s[w.0..w.1])
  }

  lemma SpaceStays(c: char)
    ensures (ToUpper(c) == SPACE <==> c == SPACE) && (ToUpper(c) == NUL <==> c == NUL)
      && (ToUpper(c) == '.' <==> c == '.')
  {
  }

  /** The command in `cmd` and the arguments in `echo` become strings of their own. */
  method GetCmdInfo(cmd: array<char>, echo: array<char>, args: array<int>, ghost text: string)
    returns (count: nat, pos: nat, ext: int)
    requires cmd != echo && cmd.Length == echo.Length && |text| + 1 < echo.Length && NoNul(text)
    requires Shows(echo[..], text) && Shows(cmd[..], Upper(text))
    requires |Words(text, CommandEnd(text) + 1)| < args.Length
    modifies cmd, echo, args
    ensures pos == CommandStart(text) && TextAt(cmd[..], pos, Upper(text)[pos..CommandEnd(text)])
    ensures IsExtension(text, ext)
    ensures var words := Words(text, CommandEnd(text) + 1);
      && count == |words| && args[count] == NONE
      && forall k :: 0 <= k < count ==> ArgumentIs(text, echo[..], args[..], words, k)
  {
    var end;
    pos, end := FindCommand(cmd, text);
    cmd[end] := NUL;
    ext := FindExtension(cmd, pos, end, text);
    assert TextAt(cmd[..], pos, Upper(text)[pos..end]);
    count := SplitWords(echo, args, end, text);
  }

  method FindCommand(cmd: array<char>, ghost text: string) returns (pos: nat, end: nat)
    requires Shows(cmd[..], Upper(text)) && NoNul(text)
    ensures pos == CommandStart(text) && end == CommandEnd(text)
  {
    forall k | 0 <= k < |text|
      ensures (cmd[k] == SPACE <==> text[k] == SPACE) && cmd[k] != NUL
    {
      assert cmd[k] == ToUpper(text[k]);
      SpaceStays(text[k]);
    }
    pos := 0;
    while cmd[pos] == SPACE
      invariant 0 <= pos <= |text| && SkipSpaces(text, pos) == CommandStart(text)
      decreases |text| - pos
    {
      pos := pos + 1;
    }
    end := pos;
    while cmd[end] != SPACE && cmd[end] != NUL
      invariant pos <= end <= |text| && SkipWord(text, end) == CommandEnd(text)
      decreases |text| - end
    {
      end := end + 1;
    }
  }

  method FindExtension(cmd: array<char>, pos: nat, end: nat, ghost text: string) returns (ext: int)
    requires pos == CommandStart(text) && end == CommandEnd(text) && |text| < cmd.Length
    requires forall k :: pos <= k < end ==> cmd[k] == ToUpper(text[k])
    ensures IsExtension(text, ext)
  {
    forall k | pos <= k < end
      ensures cmd[k] == '.' <==> text[k] == '.'
    {
      SpaceStays(text[k]);
    }
    ext := end;
    while ext != pos && cmd[ext - 1] != '.'
      invariant pos <= ext <= end && forall k :: ext <= k < end ==> text[k] != '.'
    {
      ext := ext - 1;
    }
    if ext == pos {
      ext := NONE;
    }
  }

  /** Words closed so far: addresses stored, terminators written. */
  predicate Closed(b: seq<char>, args: seq<int>, done: seq<(int, int)>, i: nat) {
    |done| <= |args| && forall k :: 0 <= k < |done| ==>
      0 <= done[k].0 <= done[k].1 < i && done[k].1 < |b| && args[k] == done[k].0 && b[done[k].1] == NUL
  }

  /** The letters of the words are still there; the rest of the line is as it was. */
  predicate Kept(text: string, b: seq<char>, p: nat) {
    && |text| + 1 < |b|
    && (forall i :: p <= i < |text| ==> b[i] == text[i])
    && (forall i :: 0 <= i < |text| && text[i] != SPACE ==> b[i] == text[i])
    && (forall i :: |text| <= i < |b| ==> b[i] == NUL)
  }

  /** The state of the loop at place `p`, with a word open since `start` or none. */
  predicate Splitting(text: string, end: nat, b: seq<char>, args: seq<int>, done: seq<(int, int)>, p: nat, start: int) {
    var words, count := Words(text, end + 1), |done| + (if start != NONE then 1 else 0);
    && end < p <= |text| + 1 && count <= |words| < |args|
    && Kept(text, b, p) && Closed(b, args, done, p)
    && (start != NONE ==> end < start < p && args[count - 1] == start)
    && (if p <= |text| then words == done + Scan(text, p, start) else words == [] && start == NONE)
  }

  method SplitWords(echo: array<char>, args: array<int>, end: nat, ghost text: string) returns (count: nat)
    requires |text| + 1 < echo.Length && NoNul(text) && Shows(echo[..], text) && end == CommandEnd(text)
    requires |Words(text, end + 1)| < args.Length
    modifies echo, args
    ensures var words := Words(text, end + 1);
      && count == |words| && args[count] == NONE
      && forall k :: 0 <= k < count ==> ArgumentIs(text, echo[..], args[..], words, k)
  {
    hide Splitting, Words, Scan, ArgumentIs, Shows;
    ghost var done: seq<(int, int)> := [];
    var newArg := false;
    count := 0;
    ghost var b := echo[..];
    echo[end] := NUL;
    assert echo[..] == b[end := NUL];
    BeginSplit(text, end, b, args[..]);
    var p := end + 1;
    InRange(text, end, echo[..], args[..], done, p, NONE);
    while echo[p] != NUL
      invariant 0 <= p < echo.Length && count == |done| + (if newArg then 1 else 0) < args.Length
      invariant Splitting(text, end, echo[..], args[..], done, p, if newArg then args[count - 1] else NONE)
      invariant p <= |text| + 1 && (newArg ==> args[count - 1] >= 0)
      decreases |text| + 1 - p
    {
      b := echo[..];
      ghost var before := args[..];
      ghost var start := if newArg then args[count - 1] else NONE;
      if echo[p] == SPACE {
        if newArg {
          echo[p] := NUL;
          newArg := false;
          assert echo[..] == b[p := NUL];
        }
        SplitSpace(text, end, b, before, done, p, start);
        done := if start != NONE then done + [(start, p)] else done;
      } else {
        if !newArg {
          newArg := true;
          args[count] := p;
          count := count + 1;
          assert args[..] == before[|done| := p];
        }
        SplitLetter(text, end, b, before, done, p, start);
      }
      p := p + 1;
      InRange(text, end, echo[..], args[..], done, p, if newArg then args[count - 1] else NONE);
    }
    EndSplit(text, end, echo[..], args[..], done, p, if newArg then args[count - 1] else NONE);
    ghost var all := args[..];
    args[count] := NONE;
    ghost var words := Words(text, end + 1);
    forall k | 0 <= k < count
      ensures ArgumentIs(text, echo[..], args[..], words, k)
    {
      ArgumentKept(text, echo[..], all, args[..], words, k);
    }
  }

  lemma InRange(text: string, end: nat, b: seq<char>, args: seq<int>, done: seq<(int, int)>, p: nat, start: int)
    requires Splitting(text, end, b, args, done, p, start)
    ensures p < |b| && |done| + (if start != NONE then 1 else 0) <= |Words(text, end + 1)| < |args|
    ensures p <= |text| + 1 && (b[p] != NUL ==> p < |text|)
  {
  }

  lemma BeginSplit(text: string, end: nat, b: seq<char>, args: seq<int>)
    requires |text| + 1 < |b| && Shows(b, text) && end == CommandEnd(text) && |Words(text, end + 1)| < |args|
    ensures Splitting(text, end, b[end := NUL], args, [], end + 1, NONE)
  {
    hide Scan;
    assert end + 1 <= |text| ==> Words(text, end + 1) == [] + Scan(text, end + 1, NONE);
  }

  lemma SplitSpace(text: string, end: nat, b: seq<char>, args: seq<int>, done: seq<(int, int)>, p: nat, start: int)
    requires Splitting(text, end, b, args, done, p, start) && p < |b| && b[p] == SPACE
    ensures if start != NONE then Splitting(text, end, b[p := NUL], args, done + [(start, p)], p + 1, NONE)
            else Splitting(text, end, b, args, done, p + 1, NONE)
  {
    AtSpace(text, b, p);
    hide Kept, Closed, Words, Scan;
    ScanSpace(text, p, start, done);
    if start != NONE {
      KeptSpace(text, b, p, NUL);
      ClosedMore(b, args, done, p, start);
    } else {
      KeptSpace(text, b, p, SPACE);
      assert b[p := SPACE] == b;
      ClosedOn(b, args, done, p);
    }
  }

  lemma AtSpace(text: string, b: seq<char>, p: nat)
    requires Kept(text, b, p) && p < |b| && b[p] == SPACE
    ensures p < |text| && text[p] == SPACE
  {
  }

  lemma ScanSpace(s: string, p: nat, start: int, done: seq<(int, int)>)
    requires p < |s| && s[p] == SPACE
    ensures done + Scan(s, p, start) == (if start != NONE then done + [(start, p)] else done) + Scan(s, p + 1, NONE)
  {
    var rest := Scan(s, p + 1, NONE);
    assert done + ([(start, p)] + rest) == done + [(start, p)] + rest;
    assert [] + rest == rest;
  }

  lemma KeptSpace(text: string, b: seq<char>, p: nat, c: char)
    requires Kept(text, b, p) && p < |text| && text[p] == SPACE
    ensures Kept(text, b[p := c], p + 1)
  {
  }

  lemma ClosedMore(b: seq<char>, args: seq<int>, done: seq<(int, int)>, p: nat, start: int)
    requires Closed(b, args, done, p) && 0 <= start < p < |b| && |done| < |args| && args[|done|] == start
    ensures Closed(b[p := NUL], args, done + [(start, p)], p + 1)
  {
  }

  lemma ClosedOn(b: seq<char>, args: seq<int>, done: seq<(int, int)>, p: nat)
    requires Closed(b, args, done, p)
    ensures Closed(b, args, done, p + 1)
  {
  }

  lemma SplitLetter(text: string, end: nat, b: seq<char>, args: seq<int>, done: seq<(int, int)>, p: nat, start: int)
    requires Splitting(text, end, b, args, done, p, start) && p < |b| && b[p] != SPACE && b[p] != NUL
    ensures |done| < |args|
    ensures if start != NONE then Splitting(text, end, b, args, done, p + 1, start)
            else Splitting(text, end, b, args[|done| := p], done, p + 1, p)
  {
    assert p < |text|;
    ScanCount(text, p, start);
    hide Words;
  }

  lemma EndSplit(text: string, end: nat, b: seq<char>, args: seq<int>, done: seq<(int, int)>, p: nat, start: int)
    requires Splitting(text, end, b, args, done, p, start) && p < |b| && b[p] == NUL && NoNul(text)
    ensures var words := Words(text, end + 1);
      |words| == |done| + (if start != NONE then 1 else 0)
        && forall k :: 0 <= k < |words| ==> ArgumentIs(text, b, args, words, k)
  {
    hide Shows;
    var words := Words(text, end + 1);
    if p <= |text| {
      AtEnd(text, b, p);
      WordsAreMaximalRuns(text, end + 1);
      hide Words, Scan;
      forall k | 0 <= k < |words|
        ensures ArgumentIs(text, b, args, words, k)
      {
        assert words[k] in words;
        WordArgument(text, end, b, args, words, k);
      }
    }
  }

  lemma WordArgument(text: string, end: nat, b: seq<char>, args: seq<int>, words: seq<(int, int)>, k: nat)
    requires k < |words| && k < |args| && MaximalRun(text, end + 1, words[k]) && args[k] == words[k].0
    requires |text| < |b| && (forall i :: 0 <= i < |text| && text[i] != SPACE ==> b[i] == text[i])
      && b[words[k].1] == NUL
    ensures ArgumentIs(text, b, args, words, k)
  {
  }

  lemma AtEnd(text: string, b: seq<char>, p: nat)
    requires Kept(text, b, p) && p <= |text| && b[p] == NUL && NoNul(text)
    ensures p == |text|
  {
  }

  lemma ArgumentKept(text: string, b: seq<char>, args: seq<int>, args': seq<int>, words: seq<(int, int)>, k: nat)
    requires k < |words| && k < |args| && k < |args'| && args'[k] == args[k] && ArgumentIs(text, b, args, words, k)
    ensures ArgumentIs(text, b, args', words, k)
  {
  }

  /** An open word and a word starting here count. */
  lemma {:induction false} ScanCount(s: string, i: nat, start: int)
    requires i < |s| && (start != NONE || s[i] != SPACE)
    ensures |Scan(s, i, start)| > 0
    decreases |s| - i
  {
    if s[i] != SPACE && i + 1 < |s| {
      ScanCount(s, i + 1, if start != NONE then start else i);
    }
  }
}
