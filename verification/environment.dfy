/** The environment table of lib/lib.c against a map from hashes to values. The hash function is
    any function that does not give 0, which marks a free entry. */
module Environment {
  const HASH_TABLE_SIZE: nat := 101

  datatype EnvEntry = EnvEntry(key: string, value: string, keyHash: nat)

  datatype Found = Missing | Value(text: string)

  // ----- the table

  /** The first entry from `i` on with a given hash; 0 finds a free one. */
  function FindHash(t: seq<EnvEntry>, h: nat): (i: nat)
    ensures i <= |t| && (forall j :: 0 <= j < i ==> t[j].keyHash != h) && (i < |t| ==> t[i].keyHash == h)
  {
    if t == [] then 0 else if t[0].keyHash == h then 0 else FindHash(t[1..], h) + 1
  }

  /** at: nothing is found under an empty key. */
  function LookUp(t: seq<EnvEntry>, key: string, h: nat): Found {
    if key == "" || FindHash(t, h) == |t| then Missing else Value(t[FindHash(t, h)].value)
  }

  function Insert(t: seq<EnvEntry>, key: string, value: string, h: nat): seq<EnvEntry> {
    if LookUp(t, key, h) != Missing then
      var i := FindHash(t, h);
      t[i := t[i].(value := value)]
    else
      var i := FindHash(t, 0);
      if i == |t| then t else t[i := EnvEntry(key, value, h)]
  }

  function Erase(t: seq<EnvEntry>, h: nat): seq<EnvEntry> {
    var i := FindHash(t, h);
    if i == |t| then t else t[i := t[i].(keyHash := 0)]
  }

  function CountKeys(t: seq<EnvEntry>): nat {
    if t == [] then 0 else (if t[0].keyHash != 0 then 1 else 0) + CountKeys(t[1..])
  }

  // ----- the map

  /** What the live entries say; the first entry with a hash wins. */
  function Bindings(t: seq<EnvEntry>): map<nat, string> {
    if t == [] then map[]
    else if t[0].keyHash != 0 then Bindings(t[1..])[t[0].keyHash := t[0].value]
    else Bindings(t[1..])
  }

  /** No two live entries have the same hash. */
  predicate Distinct(t: seq<EnvEntry>) {
    forall i, j :: 0 <= i < j < |t| && t[i].keyHash != 0 ==> t[i].keyHash != t[j].keyHash
  }

  lemma {:induction false} LiveBound(t: seq<EnvEntry>, h: nat)
    requires h != 0
    ensures h in Bindings(t) <==> exists i :: 0 <= i < |t| && t[i].keyHash == h
    ensures h in Bindings(t) <==> FindHash(t, h) < |t|
    ensures h in Bindings(t) ==> Bindings(t)[h] == t[FindHash(t, h)].value
  {
    if t != [] {
      LiveBound(t[1..], h);
      if exists i :: 0 <= i < |t| && t[i].keyHash == h {
        var i :| 0 <= i < |t| && t[i].keyHash == h;
        assert i > 0 ==> t[1..][i - 1].keyHash == h;
      }
    }
  }

  /** Looking up a key gives the binding of its hash. */
  lemma LookUpIsBinding(t: seq<EnvEntry>, key: string, h: nat)
    requires h != 0 && key != ""
    ensures LookUp(t, key, h) == if h in Bindings(t) then Value(Bindings(t)[h]) else Missing
  {
    LiveBound(t, h);
  }

  lemma {:induction false} FreshIsFree(t: seq<EnvEntry>)
    ensures 0 !in Bindings(t) && CountKeys(t) <= |t|
    ensures FindHash(t, 0) < |t| <==> CountKeys(t) < |t|
  {
    if t != [] {
      FreshIsFree(t[1..]);
    }
  }

  /** Each binding is counted once. */
  lemma {:induction false} CountIsSize(t: seq<EnvEntry>)
    requires Distinct(t)
    ensures CountKeys(t) == |Bindings(t)|
  {
    if t != [] {
      assert forall i, j :: 0 <= i < j < |t[1..]| ==> t[1..][i] == t[i + 1] && t[1..][j] == t[j + 1];
      CountIsSize(t[1..]);
      if t[0].keyHash != 0 {
        LiveBound(t[1..], t[0].keyHash);
      }
    }
  }

  /** One entry is replaced: its hash stays, or was free, or becomes free. */
  lemma {:induction false} Replaced(t: seq<EnvEntry>, i: nat, x: EnvEntry)
    requires i < |t| && Distinct(t) && Distinct(t[i := x])
    requires x.keyHash == t[i].keyHash || t[i].keyHash == 0 || x.keyHash == 0
    ensures Bindings(t[i := x]) ==
      if x.keyHash != 0 then Bindings(t)[x.keyHash := x.value] else Bindings(t) - {t[i].keyHash}
  {
    hide Bindings, Distinct;
    var t' := t[i := x];
    var h := if x.keyHash != 0 then x.keyHash else t[i].keyHash;
    FreshIsFree(t);
    FreshIsFree(t');
    forall g: nat | g != 0
      ensures g in Bindings(t') <==> (g in Bindings(t) && g != h) || g == x.keyHash
      ensures g in Bindings(t') ==> Bindings(t')[g] == if g == x.keyHash then x.value
        else (if g in Bindings(t) then Bindings(t)[g] else "")
    {
      LiveBound(t, g);
      LiveBound(t', g);
      if g == h {
        OneEntry(t, t', i, x, g);
      } else {
        SameElsewhere(t, t', i, g);
      }
    }
  }

  lemma OneEntry(t: seq<EnvEntry>, t': seq<EnvEntry>, i: nat, x: EnvEntry, g: nat)
    requires i < |t| && Distinct(t) && Distinct(t') && t' == t[i := x] && g != 0
    requires g == if x.keyHash != 0 then x.keyHash else t[i].keyHash
    ensures FindHash(t', g) < |t| <==> g == x.keyHash
    ensures g == x.keyHash ==> t'[FindHash(t', g)] == x
  {
    var j := FindHash(t', g);
    assert t'[i] == x;
    if j < |t| && g == x.keyHash {
      assert j == i;
    }
    assert forall k :: 0 <= k < |t| && k != i ==> t'[k] == t[k];
  }

  lemma SameElsewhere(t: seq<EnvEntry>, t': seq<EnvEntry>, i: nat, g: nat)
    requires i < |t| && |t'| == |t| && (forall j :: 0 <= j < |t| && j != i ==> t'[j] == t[j])
    requires t[i].keyHash != g && t'[i].keyHash != g
    ensures FindHash(t', g) == FindHash(t, g) && (FindHash(t, g) < |t| ==> t'[FindHash(t, g)] == t[FindHash(t, g)])
  {
    var j, k := FindHash(t, g), FindHash(t', g);
    assert j < |t| ==> t'[j].keyHash == g;
    assert k < |t| ==> t[k].keyHash == g;
  }

  /** insert with a key: the last value wins, other keys stay, and only a new key on a full
      table is lost. */
  lemma InsertBinds(t: seq<EnvEntry>, key: string, value: string, h: nat)
    requires h != 0 && key != "" && Distinct(t)
    ensures var b := Bindings(t);
      Bindings(Insert(t, key, value, h)) == if h in b || |b| < |t| then b[h := value] else b
    ensures Distinct(Insert(t, key, value, h))
  {
    hide Bindings;
    var t' := Insert(t, key, value, h);
    LiveBound(t, h);
    FreshIsFree(t);
    CountIsSize(t);
    if h in Bindings(t) {
      var i := FindHash(t, h);
      Replaced(t, i, t[i].(value := value));
    } else if FindHash(t, 0) < |t| {
      var i := FindHash(t, 0);
      NewIsDistinct(t, i, EnvEntry(key, value, h));
      Replaced(t, i, EnvEntry(key, value, h));
    }
  }

  lemma NewIsDistinct(t: seq<EnvEntry>, i: nat, x: EnvEntry)
    requires i < |t| && Distinct(t) && forall j :: 0 <= j < |t| ==> t[j].keyHash != x.keyHash
    ensures Distinct(t[i := x])
  {
  }

  /** insert keeps the hashes of live entries distinct if and only if the key is not empty, or
      its hash is not there yet, or the table is full: an empty key is never found. */
  lemma InsertKeepsDistinctIff(t: seq<EnvEntry>, key: string, value: string, h: nat)
    requires h != 0 && Distinct(t)
    ensures Distinct(Insert(t, key, value, h)) <==> key != "" || FindHash(t, h) == |t| || CountKeys(t) == |t|
  {
    FreshIsFree(t);
    if key != "" {
      InsertBinds(t, key, value, h);
    } else if FindHash(t, 0) < |t| {
      var i, j := FindHash(t, 0), FindHash(t, h);
      var t' := Insert(t, key, value, h);
      if j == |t| {
        NewIsDistinct(t, i, EnvEntry(key, value, h));
      } else {
        assert t'[i].keyHash == t'[j].keyHash == h && i != j;
      }
    }
  }

  /** erase removes the key and leaves the others alone. */
  lemma EraseUnbinds(t: seq<EnvEntry>, h: nat)
    requires h != 0 && Distinct(t)
    ensures Bindings(Erase(t, h)) == Bindings(t) - {h} && Distinct(Erase(t, h))
  {
    hide Bindings;
    LiveBound(t, h);
    var i := FindHash(t, h);
    if i < |t| {
      Replaced(t, i, t[i].(keyHash := 0));
    }
  }

  // ----- the system calls

  const MAX_KEY_LEN: nat := 64
  const MAX_VAL_LEN: nat := 128

  datatype EnvCall = SetEnv(key: string, value: string, overwrite: bool) | UnsetEnv(key: string)

  /** setenv turns away a missing or oversized name and an oversized value. */
  predicate Accepted(key: string, value: string) {
    0 < |key| < MAX_KEY_LEN && |value| < MAX_VAL_LEN
  }

  function TableStep(t: seq<EnvEntry>, c: EnvCall, hash: string -> nat): seq<EnvEntry> {
    match c
    case SetEnv(key, value, overwrite) =>
      if Accepted(key, value) && overwrite then Insert(t, key, value, hash(key)) else t
    case UnsetEnv(key) => Erase(t, hash(key))
  }

  /** The same on a map of limited size. */
  function MapStep(b: map<nat, string>, c: EnvCall, hash: string -> nat, size: nat): map<nat, string> {
    match c
    case SetEnv(key, value, overwrite) =>
      if Accepted(key, value) && overwrite && (hash(key) in b || |b| < size) then b[hash(key) := value] else b
    case UnsetEnv(key) => b - {hash(key)}
  }

  function TableRun(t: seq<EnvEntry>, calls: seq<EnvCall>, hash: string -> nat): seq<EnvEntry>
    decreases |calls|
  {
    if calls == [] then t else TableRun(TableStep(t, calls[0], hash), calls[1..], hash)
  }

  function MapRun(b: map<nat, string>, calls: seq<EnvCall>, hash: string -> nat, size: nat): map<nat, string>
    decreases |calls|
  {
    if calls == [] then b else MapRun(MapStep(b, calls[0], hash, size), calls[1..], hash, size)
  }

  /** Over every sequence of setenv and unsetenv calls live hashes stay distinct and the table
      is the map: the name filter keeps the empty key away from insert. */
  lemma {:induction false} RunRefinesMap(t: seq<EnvEntry>, calls: seq<EnvCall>, hash: string -> nat)
    requires Distinct(t) && forall k :: hash(k) != 0
    ensures Distinct(TableRun(t, calls, hash))
    ensures Bindings(TableRun(t, calls, hash)) == MapRun(Bindings(t), calls, hash, |t|)
    decreases |calls|
  {
    hide Distinct, Bindings, Insert, Erase;
    if calls != [] {
      StepRefinesMap(t, calls[0], hash);
      RunRefinesMap(TableStep(t, calls[0], hash), calls[1..], hash);
    }
  }

  lemma StepRefinesMap(t: seq<EnvEntry>, c: EnvCall, hash: string -> nat)
    requires Distinct(t) && forall k :: hash(k) != 0
    ensures var t' := TableStep(t, c, hash);
      Distinct(t') && |t'| == |t| && Bindings(t') == MapStep(Bindings(t), c, hash, |t|)
  {
    hide Distinct, Bindings;
    match c
    case SetEnv(key, value, overwrite) =>
      if Accepted(key, value) {
        InsertBinds(t, key, value, hash(key));
      }
    case UnsetEnv(key) => EraseUnbinds(t, hash(key));
  }

  // ----- the names

  /** Every live entry holds a name with its hash. */
  predicate Named(t: seq<EnvEntry>, hash: string -> nat) {
    forall i :: 0 <= i < |t| && t[i].keyHash != 0 ==> t[i].key != "" && hash(t[i].key) == t[i].keyHash
  }

  /** Over every sequence of setenv and unsetenv calls the entries keep their names. */
  lemma {:induction false} RunKeepsNames(t: seq<EnvEntry>, calls: seq<EnvCall>, hash: string -> nat)
    requires Named(t, hash) && forall k :: hash(k) != 0
    ensures Named(TableRun(t, calls, hash), hash)
    decreases |calls|
  {
    if calls != [] {
      RunKeepsNames(TableStep(t, calls[0], hash), calls[1..], hash);
    }
  }

  /** The list of keys has exactly the keys of the live entries. */
  lemma {:induction false} KeysListed(t: seq<EnvEntry>)
    ensures forall i :: 0 <= i < |t| && t[i].keyHash != 0 ==> t[i].key in LiveKeys(t)
    ensures forall x :: x in LiveKeys(t) ==> exists i :: 0 <= i < |t| && t[i].keyHash != 0 && t[i].key == x
    ensures |LiveKeys(t)| == CountKeys(t)
  {
    if t != [] {
      var rest := t[1..];
      KeysListed(rest);
      assert forall i :: 1 <= i < |t| ==> t[i] == rest[i - 1];
      forall x | x in LiveKeys(t)
        ensures exists i :: 0 <= i < |t| && t[i].keyHash != 0 && t[i].key == x
      {
        if x in LiveKeys(rest) {
          var i :| 0 <= i < |rest| && rest[i].keyHash != 0 && rest[i].key == x;
          assert t[i + 1] == rest[i];
        }
      }
    }
  }

  /** The names that are listed are those whose hashes are bound. */
  lemma NamesAreBound(t: seq<EnvEntry>, hash: string -> nat)
    requires Named(t, hash) && forall k :: hash(k) != 0
    ensures forall x :: x in LiveKeys(t) ==> x != "" && hash(x) in Bindings(t)
    ensures forall h :: h in Bindings(t) ==> exists x :: x in LiveKeys(t) && hash(x) == h
  {
    KeysListed(t);
    FreshIsFree(t);
    forall x | x in LiveKeys(t)
      ensures x != "" && hash(x) in Bindings(t)
    {
      var i :| 0 <= i < |t| && t[i].keyHash != 0 && t[i].key == x;
      LiveBound(t, hash(x));
    }
    forall h | h in Bindings(t)
      ensures exists x :: x in LiveKeys(t) && hash(x) == h
    {
      LiveBound(t, h);
      var i :| 0 <= i < |t| && t[i].keyHash == h;
      assert t[i].key in LiveKeys(t);
    }
  }

  /** A new name is listed after setenv, unless the table is full. */
  lemma NewNameListed(t: seq<EnvEntry>, key: string, value: string, hash: string -> nat)
    requires Accepted(key, value) && FindHash(t, hash(key)) == |t| && CountKeys(t) < |t|
    requires forall k :: hash(k) != 0
    ensures key in LiveKeys(TableStep(t, SetEnv(key, value, true), hash))
  {
    FreshIsFree(t);
    var i, t' := FindHash(t, 0), TableStep(t, SetEnv(key, value, true), hash);
    assert t'[i] == EnvEntry(key, value, hash(key));
    KeysListed(t');
  }

  /** insert taken alone, with an empty key: two calls make two entries. */
  lemma EmptyKeyTwice(value: string, h: nat)
    requires h != 0
    ensures var t := [EnvEntry("", "", 0), EnvEntry("", "", 0)];
      !Distinct(Insert(Insert(t, "", value, h), "", value, h))
  {
    var t := [EnvEntry("", "", 0), EnvEntry("", "", 0)];
    var t1 := Insert(t, "", value, h);
    FindsAt(t, 0, 0);
    assert t1 == [EnvEntry("", value, h), EnvEntry("", "", 0)];
    FindsAt(t1, 0, 1);
    var t2 := Insert(t1, "", value, h);
    assert t2 == [EnvEntry("", value, h), EnvEntry("", value, h)];
    assert t2[0].keyHash == t2[1].keyHash;
  }

  lemma FindsAt(t: seq<EnvEntry>, h: nat, i: nat)
    requires i < |t| && t[i].keyHash == h && forall j :: 0 <= j < i ==> t[j].keyHash != h
    ensures FindHash(t, h) == i
  {
  }

  // ----- the table in place

  class EnvMap {
    const table: array<EnvEntry>
    const hash: string -> nat

    ghost predicate Valid()
      reads this, table
    {
      table.Length == HASH_TABLE_SIZE && Distinct(table[..]) && forall k :: hash(k) != 0
    }

    ghost function View(): map<nat, string>
      reads this, table
    {
      Bindings(table[..])
    }

    /** memset of the page that holds the table. */
    constructor (hash: string -> nat)
      requires forall k :: hash(k) != 0
      ensures Valid() && View() == map[] && fresh(table) && this.hash == hash
    {
      this.hash := hash;
      table := new EnvEntry[HASH_TABLE_SIZE](i => EnvEntry("", "", 0));
      new;
      NothingBound(table[..]);
    }

    method Find(h: nat) returns (i: nat)
      ensures i == FindHash(table[..], h)
    {
      i := 0;
      assert table[0..] == table[..];
      while i < table.Length && table[i].keyHash != h
        invariant 0 <= i <= table.Length
        invariant FindHash(table[..], h) == i + FindHash(table[i..], h)
      {
        assert table[i..][1..] == table[i + 1..];
        i := i + 1;
      }
    }

    method At(key: string) returns (r: Found)
      requires Valid() && key != ""
      ensures r == if hash(key) in View() then Value(View()[hash(key)]) else Missing
    {
      LookUpIsBinding(table[..], key, hash(key));
      var i := Find(hash(key));
      if i == table.Length {
        return Missing;
      }
      return Value(table[i].value);
    }

    method Put(key: string, value: string)
      requires Valid() && key != ""
      modifies table
      ensures Valid()
      ensures var b, h := old(View()), hash(key);
        View() == if h in b || |b| < HASH_TABLE_SIZE then b[h := value] else b
    {
      hide Bindings, Distinct;
      ghost var t := table[..];
      InsertBinds(t, key, value, hash(key));
      var i := Find(hash(key));
      if i < table.Length {
        table[i] := table[i].(value := value);
      } else {
        var j := Find(0);
        if j < table.Length {
          table[j] := EnvEntry(key, value, hash(key));
        }
      }
      assert table[..] == Insert(t, key, value, hash(key));
    }

    /** setenv, on the environment of the caller. */
    method SetVariable(key: string, value: string, overwrite: bool) returns (r: int)
      requires Valid()
      modifies table
      ensures Valid() && View() == MapStep(old(View()), SetEnv(key, value, overwrite), hash, HASH_TABLE_SIZE)
      ensures r == if Accepted(key, value) then 0 else -1
    {
      if |value| > MAX_VAL_LEN - 1 || |key| == 0 || |key| > MAX_KEY_LEN - 1 {
        return -1;
      }
      if overwrite {
        Put(key, value);
      }
      r := 0;
    }

    method Remove(key: string)
      requires Valid()
      modifies table
      ensures Valid() && View() == old(View()) - {hash(key)}
    {
      hide Bindings, Distinct;
      ghost var t := table[..];
      EraseUnbinds(t, hash(key));
      var i := Find(hash(key));
      if i < table.Length {
        table[i] := table[i].(keyHash := 0);
      }
      assert table[..] == Erase(t, hash(key));
    }

    /** The number of keys, and the keys themselves in table order. */
    method Keys(list: array<string>) returns (count: nat)
      requires Valid() && list.Length >= HASH_TABLE_SIZE
      modifies list
      ensures count == |View()| <= list.Length && list[..count] == LiveKeys(table[..])
    {
      hide Bindings, Distinct, CountKeys, LiveKeys;
      CountIsSize(table[..]);
      count := 0;
      var i := 0;
      assert table[0..] == table[..];
      assert list[..0] + LiveKeys(table[0..]) == LiveKeys(table[..]);
      KeysEnd();
      while i < HASH_TABLE_SIZE
        invariant 0 <= i <= HASH_TABLE_SIZE && count <= i
        invariant count + CountKeys(table[i..]) == CountKeys(table[..])
        invariant list[..count] + LiveKeys(table[i..]) == LiveKeys(table[..])
      {
        assert table[i..][1..] == table[i + 1..];
        ghost var before := list[..count];
        KeysNext(table[i..], before);
        if table[i].keyHash != 0 {
          list[count] := table[i].key;
          assert list[..count + 1] == before + [table[i].key];
          count := count + 1;
        }
        i := i + 1;
      }
      assert table[i..] == [];
    }
  }

  function LiveKeys(t: seq<EnvEntry>): seq<string> {
    if t == [] then [] else (if t[0].keyHash != 0 then [t[0].key] else []) + LiveKeys(t[1..])
  }

  lemma KeysEnd()
    ensures CountKeys([]) == 0 && LiveKeys([]) == []
  {
  }

  lemma KeysNext(t: seq<EnvEntry>, before: seq<string>)
    requires t != []
    ensures CountKeys(t) == (if t[0].keyHash != 0 then 1 else 0) + CountKeys(t[1..])
    ensures before + LiveKeys(t) == (if t[0].keyHash != 0 then before + [t[0].key] else before) + LiveKeys(t[1..])
  {
    assert before + ([t[0].key] + LiveKeys(t[1..])) == before + [t[0].key] + LiveKeys(t[1..]);
    assert [] + LiveKeys(t[1..]) == LiveKeys(t[1..]);
  }

  lemma {:induction false} NothingBound(t: seq<EnvEntry>)
    requires forall i :: 0 <= i < |t| ==> t[i].keyHash == 0
    ensures Bindings(t) == map[]
  {
    if t != [] {
      NothingBound(t[1..]);
    }
  }
}
