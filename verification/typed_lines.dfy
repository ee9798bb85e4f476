/** What the keys put into a command line: the characters typed, where the cursor was. */
module TypedLines {
  import opened CTypes
  import opened LineEditor

  /** A key that stands for itself. */
  predicate Plain(c: char) {
    c != NUL && c != RETURN && c != DELETE && c != ESCAPE && c != CTRL_C && c != CTRL_Z
  }

  predicate PlainKeys(keys: seq<Key>) {
    forall i :: 0 <= i < |keys| ==> Plain(keys[i].ch) && !keys[i].interrupt
  }

  /** The characters of the keys. */
  function Letters(keys: seq<Key>): (s: string)
    ensures |s| == |keys| && forall i :: 0 <= i < |keys| ==> s[i] == keys[i].ch
  {
    seq(|keys|, i requires 0 <= i < |keys| => keys[i].ch)
  }

  /** A plain key puts its own character in at the cursor; what is before and behind stays, and the
      cursor moves on by one. */
  lemma PlainKeyInserts(l: Line, c: char)
    requires Sound(l) && l.acc == Idle && Plain(c)
    ensures var r := Edit(l, c);
      && |r.text| == |l.text| + 1 && r.text[l.cursor] == c && r.cursor == l.cursor + 1 && r.acc == Idle
      && r.text[..l.cursor] == l.text[..l.cursor] && r.text[l.cursor + 1..] == l.text[l.cursor..]
  {
  }

  /** The erase key takes out the character left of the cursor, if there is one. */
  lemma DeleteKeyErases(l: Line)
    requires Sound(l)
    ensures var r := Edit(l, DELETE);
      && r.acc == Idle
      && (l.cursor == 0 ==> r.text == l.text && r.cursor == 0)
      && (l.cursor > 0 ==>
            && |r.text| == |l.text| - 1 && r.cursor == l.cursor - 1
            && r.text[..r.cursor] == l.text[..r.cursor] && r.text[r.cursor..] == l.text[l.cursor..])
  {
  }

  /** Escape sequences other than those of arrows, and the two control keys, change nothing. */
  lemma OtherKeysChangeNothing(l: Line, first: char, c: char)
    requires Sound(l) && l.acc == Idle && Plain(first) && Plain(c) && first != '['
    ensures Edit(Edit(Edit(l, ESCAPE), first), c) == l
    ensures Edit(l, CTRL_C) == l && Edit(l, CTRL_Z) == l
  {
  }

  lemma PlainKeyAppends(l: Line, c: char)
    requires Sound(l) && l.acc == Idle && l.cursor == |l.text| && Plain(c)
    ensures Edit(l, c) == Line(l.text + [c], |l.text| + 1, Idle)
  {
    assert l.text[..l.cursor] == l.text && l.text[l.cursor..] == "";
    assert l.text + [c] + "" == l.text + [c];
  }

  /** Plain keys at the end of a line are appended to it. */
  lemma {:induction false} PlainKeysAppend(l: Line, keys: seq<Key>, rest: seq<Key>)
    requires Sound(l) && l.acc == Idle && l.cursor == |l.text| && PlainKeys(keys) && KeysOk(rest)
    ensures KeysOk(keys + rest)
    ensures var l' := Line(l.text + Letters(keys), |l.text| + |keys|, Idle);
      Sound(l') && ReadLine(l, keys + rest) == ReadLine(l', rest)
    decreases |keys|
  {
    if keys == [] {
      assert keys + rest == rest && l.text + Letters(keys) == l.text;
    } else {
      hide Edit;
      var c := keys[0].ch;
      var l1 := Edit(l, c);
      PlainKeyAppends(l, c);
      assert (keys + rest)[1..] == keys[1..] + rest;
      PlainKeysAppend(l1, keys[1..], rest);
      assert l1.text + Letters(keys[1..]) == l.text + Letters(keys);
    }
  }

  /** The line read is what was typed: plain keys and then Enter, whatever is typed after that. */
  lemma TypedIsRead(keys: seq<Key>, rest: seq<Key>)
    requires PlainKeys(keys) && KeysOk(rest)
    ensures KeysOk(keys + [Key(RETURN, false)] + rest)
    ensures ReadLine(Line("", 0, Idle), keys + [Key(RETURN, false)] + rest) == Line(Letters(keys), |keys|, Idle)
  {
    var end := [Key(RETURN, false)] + rest;
    assert keys + [Key(RETURN, false)] + rest == keys + end;
    PlainKeysAppend(Line("", 0, Idle), keys, end);
    assert "" + Letters(keys) == Letters(keys);
  }

  /** An interrupt forgets what was typed before it and keeps what comes after, from the key on with
      which it is noticed. */
  lemma InterruptForgets(before: seq<Key>, key: Key, after: seq<Key>, rest: seq<Key>)
    requires PlainKeys(before) && Plain(key.ch) && key.interrupt && PlainKeys(after) && KeysOk(rest)
    ensures KeysOk(before + [key] + after + [Key(RETURN, false)] + rest)
    ensures ReadLine(Line("", 0, Idle), before + [key] + after + [Key(RETURN, false)] + rest)
      == Line([key.ch] + Letters(after), 1 + |after|, Idle)
  {
    var end := [Key(RETURN, false)] + rest;
    var tail := [key] + (after + end);
    assert before + [key] + after + [Key(RETURN, false)] + rest == before + tail;
    PlainKeysAppend(Line("", 0, Idle), before, tail);
    var l := Line("" + Letters(before), |before|, Idle);
    assert tail[1..] == after + end;
    assert ReadLine(l, tail) == ReadLine(Edit(Flush(l, true), key.ch), after + end);
    assert Edit(Flush(l, true), key.ch) == Line([key.ch], 1, Idle) by {
      assert ""[..0] + [key.ch] + ""[0..] == [key.ch];
    }
    PlainKeysAppend(Line([key.ch], 1, Idle), after, end);
  }
}
