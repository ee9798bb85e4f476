/** The line editor of user/shell/shell.c over two buffers, against an editor on a sequence
    with a cursor; and memmove of user/lib/flib_asm.s. */
module LineEditor {
  import opened CTypes

  const RETURN: char := '\r'
  const DELETE: char := 127 as char
  const ESCAPE: char := 27 as char
  const CTRL_C: char := 3 as char
  const CTRL_Z: char := 26 as char

  /** A key, and whether an interrupt came in while the shell waited for it. */
  datatype Key = Key(ch: char, interrupt: bool)

  /** The part of an escape sequence that has been typed. */
  datatype Accumulator = Idle | Escape | Sequence(first: char)

  datatype Line = Line(text: string, cursor: nat, acc: Accumulator)

  predicate NoNul(s: string) {
    forall i :: 0 <= i < |s| ==> s[i] != NUL
  }

  predicate Sound(l: Line) {
    l.cursor <= |l.text| && NoNul(l.text) && (l.acc.Sequence? ==> l.acc.first != NUL)
  }

  function ToUpper(c: char): char {
    if 'a' <= c <= 'z' then (c as int - 32) as char else c
  }

  /** Small letters become the capital at the same place in the alphabet; nothing else changes. */
  lemma ToUpperExact(c: char)
    ensures if 'a' <= c <= 'z' then 'A' <= ToUpper(c) <= 'Z' && ToUpper(c) as int - 'A' as int == c as int - 'a' as int
            else ToUpper(c) == c
    ensures ToUpper(ToUpper(c)) == ToUpper(c)
  {
  }

  function Upper(s: string): (r: string)
    ensures |r| == |s| && forall i :: 0 <= i < |s| ==> r[i] == ToUpper(s[i])
  {
    seq(|s|, i requires 0 <= i < |s| => ToUpper(s[i]))
  }

  // ----- the editor on sequences

  function Insert(l: Line, c: char): Line
    requires l.cursor <= |l.text|
  {
    l.(text := l.text[..l.cursor] + [c] + l.text[l.cursor..], cursor := l.cursor + 1)
  }

  function Erase(l: Line): Line
    requires l.cursor <= |l.text|
  {
    if l.cursor == 0 then l else l.(text := l.text[..l.cursor - 1] + l.text[l.cursor..], cursor := l.cursor - 1)
  }

  function Arrow(l: Line, c: char): Line {
    if c == 'C' && l.cursor < |l.text| then l.(cursor := l.cursor + 1)
    else if c == 'D' && l.cursor > 0 then l.(cursor := l.cursor - 1)
    else l
  }

  function Edit(l: Line, c: char): (r: Line)
    requires Sound(l) && c != NUL
    ensures Sound(r)
  {
    if c == DELETE then Erase(l.(acc := Idle))
    else if c == ESCAPE then (if l.acc.Idle? then l.(acc := Escape) else l)
    else if c == CTRL_C || c == CTRL_Z then l
    else
      match l.acc
      case Idle => Insert(l, c)
      case Escape => l.(acc := Sequence(c))
      case Sequence(f) => if f == '[' then Arrow(l.(acc := Idle), c) else l.(acc := Idle)
  }

  function Flush(l: Line, interrupt: bool): Line {
    if interrupt then l.(text := "", cursor := 0) else l
  }

  predicate KeysOk(keys: seq<Key>) {
    forall i :: 0 <= i < |keys| ==> keys[i].ch != NUL
  }

  /** The line when Enter is pressed, or when the keys end. */
  function ReadLine(l: Line, keys: seq<Key>): (r: Line)
    requires Sound(l) && KeysOk(keys)
    ensures Sound(r)
    decreases |keys|
  {
    if keys == [] then l
    else
      var l1 := Flush(l, keys[0].interrupt);
      if keys[0].ch == RETURN then l1 else ReadLine(Edit(l1, keys[0].ch), keys[1..])
  }

  /** The line never outgrows a buffer of `size` characters, terminator included. */
  predicate Fits(l: Line, keys: seq<Key>, size: nat)
    requires Sound(l) && KeysOk(keys)
    decreases |keys|
  {
    |l.text| < size &&
    (keys == [] ||
     var l1 := Flush(l, keys[0].interrupt);
     keys[0].ch == RETURN || Fits(Edit(l1, keys[0].ch), keys[1..], size))
  }

  /** The erase key takes back the character just typed, wherever it was put in. */
  lemma EraseUndoesInsert(l: Line, c: char)
    requires Sound(l) && l.acc == Idle && c != NUL
    requires c != DELETE && c != ESCAPE && c != CTRL_C && c != CTRL_Z
    ensures Edit(Edit(l, c), DELETE) == l
  {
    var s, k := l.text[..l.cursor] + [c] + l.text[l.cursor..], l.cursor;
    assert s[..k] == l.text[..k] && s[k + 1..] == l.text[k..];
    assert l.text[..k] + l.text[k..] == l.text;
  }

  /** An arrow key sequence moves the cursor by one inside the line and leaves the text alone. */
  lemma ArrowMoves(l: Line, c: char)
    requires Sound(l) && l.acc == Idle && c != NUL && c != DELETE && c != ESCAPE && c != CTRL_C && c != CTRL_Z
    ensures var r := Edit(Edit(Edit(l, ESCAPE), '['), c);
      && r.text == l.text && r.acc == Idle
      && r.cursor == (if c == 'C' && l.cursor < |l.text| then l.cursor + 1
                      else if c == 'D' && l.cursor > 0 then l.cursor - 1 else l.cursor)
  {
  }

  // ----- the buffers

  /** A buffer holds a text and is zero beyond it. */
  predicate Shows(a: seq<char>, text: string) {
    |text| < |a| && (forall i :: 0 <= i < |text| ==> a[i] == text[i]) && (forall i :: |text| <= i < |a| ==> a[i] == NUL)
  }

  /** memmove within one array: bytes go forwards or backwards, so that overlap does no harm. */
  method Memmove(a: array<char>, dst: nat, src: nat, n: nat)
    requires dst + n <= a.Length && src + n <= a.Length
    modifies a
    ensures forall i :: 0 <= i < a.Length ==>
      a[i] == old(a[if dst <= i < dst + n then i - dst + src else i])
  {
    if n == 0 {
      return;
    }
    var to, from, step := dst, src, 1;
    if src < dst && src + n > dst {
      to, from, step := dst + n - 1, src + n - 1, -1;
    }
    var left := n;
    while left != 0
      invariant 0 <= left <= n
      invariant step == 1 ==> to == dst + (n - left) && from == src + (n - left)
      invariant step == -1 ==> to == dst + left - 1 && from == src + left - 1 && src < dst
      invariant step == 1 || step == -1
      invariant step == 1 ==> src >= dst || src + n <= dst
      invariant forall i :: 0 <= i < a.Length ==>
        a[i] == old(a[if (step == 1 && dst <= i < dst + (n - left)) || (step == -1 && dst + left <= i < dst + n)
                      then i - dst + src else i])
    {
      a[to] := a[from];
      to, from, left := to + step, from + step, left - 1;
    }
  }

  /** The character left of the cursor out of one buffer; `split` are right of the cursor. */
  method EraseIn(a: array<char>, size: nat, cursor: nat, split: nat, ghost text: string)
    requires Shows(a[..], text) && size == |text| < a.Length && 0 < cursor <= size && split == size - cursor
    modifies a
    ensures Shows(a[..], text[..cursor - 1] + text[cursor..])
  {
    hide Shows;
    ghost var before := a[..];
    if cursor < size {
      Memmove(a, cursor - 1, cursor, split);
      assert forall i {:trigger a[i]} :: 0 <= i < a.Length ==>
        a[i] == before[if cursor - 1 <= i < size - 1 then i + 1 else i];
    }
    a[size - 1] := NUL;
    assert forall i {:trigger a[i]} :: 0 <= i < a.Length ==>
      a[i] == if i == size - 1 then NUL else if cursor - 1 <= i < size - 1 then before[i + 1] else before[i];
    ShowsErased(before, a[..], text, cursor);
  }

  lemma ShowsErased(before: seq<char>, after: seq<char>, text: string, cursor: nat)
    requires Shows(before, text) && 0 < cursor <= |text| && |after| == |before|
    requires forall i {:trigger after[i]} :: 0 <= i < |after| ==>
      after[i] == if i == |text| - 1 then NUL else if cursor - 1 <= i < |text| - 1 then before[i + 1] else before[i]
    ensures Shows(after, text[..cursor - 1] + text[cursor..])
  {
    var text' := text[..cursor - 1] + text[cursor..];
    forall i | 0 <= i < |text'|
      ensures after[i] == text'[i]
    {
      if i >= cursor - 1 {
        assert text'[i] == text[i + 1] == before[i + 1];
      } else {
        assert text'[i] == text[i] == before[i];
      }
    }
    forall i | |text'| <= i < |after|
      ensures after[i] == NUL
    {
      assert i > |text| - 1 ==> before[i] == NUL;
    }
  }

  /** A character into one buffer at the cursor. */
  method InsertIn(a: array<char>, size: nat, cursor: nat, split: nat, c: char, ghost text: string)
    requires Shows(a[..], text) && size == |text| && cursor <= size && split == size - cursor && size + 1 < a.Length
    modifies a
    ensures Shows(a[..], text[..cursor] + [c] + text[cursor..])
  {
    hide Shows;
    ghost var before := a[..];
    if cursor < size {
      Memmove(a, cursor + 1, cursor, split);
      assert forall i {:trigger a[i]} :: 0 <= i < a.Length ==> a[i] == before[if cursor < i <= size then i - 1 else i];
    }
    a[cursor] := c;
    assert forall i {:trigger a[i]} :: 0 <= i < a.Length ==>
      a[i] == if i == cursor then c else if cursor < i <= size then before[i - 1] else before[i];
    ShowsInserted(before, a[..], text, cursor, c);
  }

  lemma ShowsInserted(before: seq<char>, after: seq<char>, text: string, cursor: nat, c: char)
    requires Shows(before, text) && cursor <= |text| && |text| + 1 < |before| == |after|
    requires forall i {:trigger after[i]} :: 0 <= i < |after| ==>
      after[i] == if i == cursor then c else if cursor < i <= |text| then before[i - 1] else before[i]
    ensures Shows(after, text[..cursor] + [c] + text[cursor..])
  {
    var text' := text[..cursor] + [c] + text[cursor..];
    forall i | 0 <= i < |text'|
      ensures after[i] == text'[i]
    {
      if i > cursor {
        assert text'[i] == text[i - 1] == before[i - 1];
      } else if i < cursor {
        assert text'[i] == text[i] == before[i];
      }
    }
    forall i | |text'| <= i < |after|
      ensures after[i] == NUL
    {
      assert before[i] == NUL;
    }
  }

  lemma UpperErased(text: string, cursor: nat)
    requires 0 < cursor <= |text|
    ensures Upper(text[..cursor - 1] + text[cursor..]) == Upper(text)[..cursor - 1] + Upper(text)[cursor..]
  {
  }

  lemma UpperInserted(text: string, cursor: nat, c: char)
    requires cursor <= |text|
    ensures Upper(text[..cursor] + [c] + text[cursor..]) == Upper(text)[..cursor] + [ToUpper(c)] + Upper(text)[cursor..]
  {
  }

  class CommandLine {
    const buf: array<char>
    const echo: array<char>
    const keyAcc: array<char>
    var bufSize: nat
    var cursor: nat
    ghost var line: Line

    ghost predicate Valid()
      reads this, buf, echo, keyAcc
    {
      && buf != echo && buf != keyAcc && echo != keyAcc && buf.Length == echo.Length && keyAcc.Length == 3
      && Sound(line) && bufSize == |line.text| < buf.Length && cursor == line.cursor
      && Shows(echo[..], line.text) && Shows(buf[..], Upper(line.text))
      && AccShows(keyAcc[..], line.acc)
    }

    constructor (size: nat)
      requires size > 0
      ensures Valid() && line == Line("", 0, Idle) && buf.Length == size
      ensures fresh(buf) && fresh(echo) && fresh(keyAcc)
    {
      buf := new char[size](i => NUL);
      echo := new char[size](i => NUL);
      keyAcc := new char[3](i => NUL);
      bufSize, cursor := 0, 0;
      line := Line("", 0, Idle);
    }

    /** strlen from a place in the echo buffer. */
    method EchoLength(from: nat) returns (n: nat)
      requires Valid() && from <= bufSize
      ensures n == bufSize - from
    {
      n := 0;
      while echo[from + n] != NUL
        invariant 0 <= n <= bufSize - from
        decreases bufSize - from - n
      {
        n := n + 1;
      }
    }

    method ClearAcc()
      requires Valid()
      modifies keyAcc, this`line
      ensures Valid() && line == old(line).(acc := Idle)
    {
      keyAcc[0], keyAcc[1], keyAcc[2] := NUL, NUL, NUL;
      line := line.(acc := Idle);
    }

    /** An interrupt empties the line. */
    method FlushLine()
      requires Valid()
      modifies this`bufSize, this`cursor, this`line, buf, echo
      ensures Valid() && line == Flush(old(line), true)
    {
      forall i | 0 <= i < bufSize {
        buf[i] := NUL;
      }
      forall i | 0 <= i < bufSize {
        echo[i] := NUL;
      }
      bufSize, cursor := 0, 0;
      line := Flush(line, true);
    }

    method EraseLeft()
      requires Valid()
      modifies this`bufSize, this`cursor, this`line, buf, echo
      ensures Valid() && line == Erase(old(line))
    {
      hide Shows, AccShows;
      if cursor == 0 {
        return;
      }
      var split := 0;
      if cursor < bufSize {
        split := EchoLength(cursor);
      }
      UpperErased(line.text, cursor);
      EraseIn(buf, bufSize, cursor, split, Upper(line.text));
      EraseIn(echo, bufSize, cursor, split, line.text);
      bufSize, cursor := bufSize - 1, cursor - 1;
      line := Erase(line);
    }

    method InsertHere(c: char)
      requires Valid() && c != NUL && bufSize + 1 < buf.Length
      modifies this`bufSize, this`cursor, this`line, buf, echo
      ensures Valid() && line == Insert(old(line), c)
    {
      hide Shows, AccShows;
      var split := 0;
      if cursor < bufSize {
        split := EchoLength(cursor);
      }
      UpperInserted(line.text, cursor, c);
      InsertIn(buf, bufSize, cursor, split, ToUpper(c), Upper(line.text));
      InsertIn(echo, bufSize, cursor, split, c, line.text);
      bufSize, cursor := bufSize + 1, cursor + 1;
      line := Insert(line, c);
    }

    /** A key after the escape key. */
    method EscapeKey(c: char)
      requires Valid() && c != NUL && !line.acc.Idle?
      modifies this`cursor, this`line, keyAcc
      ensures Valid()
      ensures line == match old(line).acc
        case Sequence(f) => if f == '[' then Arrow(old(line).(acc := Idle), c) else old(line).(acc := Idle)
        case _ => old(line).(acc := Sequence(c))
    {
      var i := 1;
      while i < 3 && keyAcc[i] != NUL
        invariant 1 <= i <= 3 && forall j :: 1 <= j < i ==> keyAcc[j] != NUL
      {
        i := i + 1;
      }
      if i < 3 {
        keyAcc[i] := c;
        if i < 2 {
          line := line.(acc := Sequence(c));
          return;
        }
      }
      ghost var was := line;
      if keyAcc[1] == '[' {
        if keyAcc[2] == 'C' {
          if cursor < bufSize {
            cursor := cursor + 1;
          }
        } else if keyAcc[2] == 'D' {
          if cursor > 0 {
            cursor := cursor - 1;
          }
        }
        line := Arrow(line, c);
      }
      keyAcc[0], keyAcc[1], keyAcc[2] := NUL, NUL, NUL;
      line := line.(acc := Idle);
    }

    /** One key other than Enter. */
    method Press(c: char)
      requires Valid() && c != NUL && |Edit(line, c).text| < buf.Length
      modifies this`bufSize, this`cursor, this`line, buf, echo, keyAcc
      ensures Valid() && line == Edit(old(line), c)
    {
      if c == DELETE {
        if keyAcc[0] != NUL {
          ClearAcc();
        }
        EraseLeft();
      } else if c == ESCAPE {
        keyAcc[0] := c;
        line := Edit(line, c);
      } else if c != CTRL_C && c != CTRL_Z {
        if keyAcc[0] == ESCAPE {
          EscapeKey(c);
        } else {
          InsertHere(c);
        }
      }
    }

    /** read_cmd on the keys that are typed. */
    method ReadCmd(keys: seq<Key>) returns (size: nat)
      requires Valid() && line == Line("", 0, Idle) && KeysOk(keys) && Fits(line, keys, buf.Length)
      modifies this`bufSize, this`cursor, this`line, buf, echo, keyAcc
      ensures Valid() && line == ReadLine(Line("", 0, Idle), keys) && size == |line.text|
      ensures Shows(echo[..], line.text) && Shows(buf[..], Upper(line.text))
    {
      var i := 0;
      while i < |keys|
        invariant 0 <= i <= |keys| && Valid() && Fits(line, keys[i..], buf.Length)
        invariant ReadLine(line, keys[i..]) == ReadLine(Line("", 0, Idle), keys)
      {
        var key := keys[i];
        ghost var rest := keys[i..];
        assert rest[0] == key && rest[1..] == keys[i + 1..];
        if key.interrupt {
          FlushLine();
        }
        if key.ch == RETURN {
          return bufSize;
        }
        FitsNext(line, key.ch, keys[i + 1..], buf.Length);
        Press(key.ch);
        i := i + 1;
      }
      return bufSize;
    }
  }

  predicate AccShows(a: seq<char>, acc: Accumulator) {
    |a| == 3 && a[2] == NUL &&
    match acc
    case Idle => a[0] == NUL && a[1] == NUL
    case Escape => a[0] == ESCAPE && a[1] == NUL
    case Sequence(f) => a[0] == ESCAPE && a[1] == f
  }

  lemma FitsNext(l: Line, c: char, rest: seq<Key>, size: nat)
    requires Sound(l) && c != NUL && KeysOk(rest) && Fits(Edit(l, c), rest, size)
    ensures |Edit(l, c).text| < size
  {
  }
}
